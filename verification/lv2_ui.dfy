/**
 * The LV2 UI object `Lv2UI`: the window-creation defaults, the table of
 * binding cells (one per control port, reachable by port index and by port
 * symbol), the two directions of value traffic between host and UI, lookup of
 * a cell by symbol, and the construction of the control tree.
 *
 * A binding cell is identified by the position, in the plugin's port list, of
 * the port that created it; `bindingSites` and `bindingSiteMap` hold such
 * positions where the C++ object holds pointers, so two entries that share a
 * cell hold the same position.
 */
module Lv2UserInterface {
  import opened Wrappers
  import opened Lv2Ports

  // ---------------------------------------------------------------------------
  // Window-creation parameters

  datatype Size = Size(width: real, height: real)

  const ZeroSize := Size(0.0, 0.0)
  const DefaultWindowSize := Size(800.0, 600.0)
  const DefaultMinSize := Size(320.0, 200.0)
  const DefaultMaxSize := Size(4096.0, 4096.0)
  const DefaultWindowClass := "com.twoplay.lvtk-plugin"

  /** `LvtkWindowPositioning`: only the two values the UI names are distinguished. */
  datatype Positioning = NotSet | ChildWindow | OtherPositioning(code: nat)

  /** The fields of `LvtkCreateWindowParameters` that the UI reads or fills in. */
  datatype CreateWindowParameters = CreateWindowParameters(
    positioning: Positioning,
    size: Size,
    minSize: Size,
    maxSize: Size,
    settingsKey: string,
    x11Windowclass: string,
    gtkApplicationId: string,
    title: string,
    x11WindowName: string)

  /** A default-constructed `LvtkCreateWindowParameters`: nothing set, zero sizes, empty strings. */
  const DefaultParameters := CreateWindowParameters(NotSet, ZeroSize, ZeroSize, ZeroSize, "", "", "", "", "")

  function SizeOr(s: Size, d: Size): Size { if s == ZeroSize then d else s }

  function TextOr(s: string, d: string): string { if |s| == 0 then d else s }

  /**
   * The parameters `SetCreateWindowDefaults` leaves behind, for a plugin with
   * the given name and label: child-window positioning, and every zero size
   * or empty string replaced by its default.
   */
  function WithWindowDefaults(p: CreateWindowParameters, name: string, pluginLabel: string): (r: CreateWindowParameters)
    ensures r.positioning == ChildWindow
    ensures r.size != ZeroSize && r.minSize != ZeroSize && r.maxSize != ZeroSize
    ensures p.size == ZeroSize ==> r.size == DefaultWindowSize
    ensures p.minSize == ZeroSize ==> r.minSize == DefaultMinSize
    ensures p.maxSize == ZeroSize ==> r.maxSize == DefaultMaxSize
    ensures |p.settingsKey| == 0 ==> r.settingsKey == name
    ensures |p.title| == 0 ==> r.title == name
    ensures |p.x11Windowclass| == 0 ==> r.x11Windowclass == DefaultWindowClass
    ensures |p.gtkApplicationId| == 0 ==> r.gtkApplicationId == DefaultWindowClass
    ensures |p.x11WindowName| == 0 ==> r.x11WindowName == if |pluginLabel| != 0 then pluginLabel else name
    // what is already set is kept
    ensures p.size != ZeroSize ==> r.size == p.size
    ensures p.minSize != ZeroSize ==> r.minSize == p.minSize
    ensures p.maxSize != ZeroSize ==> r.maxSize == p.maxSize
    ensures |p.settingsKey| != 0 ==> r.settingsKey == p.settingsKey
    ensures |p.title| != 0 ==> r.title == p.title
    ensures |p.x11Windowclass| != 0 ==> r.x11Windowclass == p.x11Windowclass
    ensures |p.gtkApplicationId| != 0 ==> r.gtkApplicationId == p.gtkApplicationId
    ensures |p.x11WindowName| != 0 ==> r.x11WindowName == p.x11WindowName
    // a plugin with a name gets every text field filled
    ensures |name| != 0 ==>
      |r.settingsKey| != 0 && |r.x11Windowclass| != 0 && |r.gtkApplicationId| != 0
      && |r.title| != 0 && |r.x11WindowName| != 0
  {
    CreateWindowParameters(
      ChildWindow,
      SizeOr(p.size, DefaultWindowSize),
      SizeOr(p.minSize, DefaultMinSize),
      SizeOr(p.maxSize, DefaultMaxSize),
      TextOr(p.settingsKey, name),
      TextOr(p.x11Windowclass, DefaultWindowClass),
      TextOr(p.gtkApplicationId, DefaultWindowClass),
      TextOr(p.title, name),
      TextOr(p.x11WindowName, TextOr(pluginLabel, name)))
  }

  /** The size the defaults leave: the given one, or the default size when it is zero. */
  lemma WindowSizeDefault(p: CreateWindowParameters, name: string, pluginLabel: string)
    ensures WithWindowDefaults(p, name, pluginLabel).size == if p.size == ZeroSize then DefaultWindowSize else p.size
  {
  }

  /** Applying the defaults a second time changes nothing. */
  lemma WindowDefaultsIdempotent(p: CreateWindowParameters, name: string, pluginLabel: string)
    ensures var once := WithWindowDefaults(p, name, pluginLabel);
      WithWindowDefaults(once, name, pluginLabel) == once
  {
  }

  // ---------------------------------------------------------------------------
  // Host values

  const FloatGrid: real := 16777216.0

  /**
   * The conversion of a `double` to the `float` the host protocol carries.
   * IEEE rounding is not modelled: values are rounded down to a fixed grid,
   * which keeps the one property the UI relies on — converting a value that
   * is already a float gives it back.
   */
  function Narrow(x: real): (f: real)
    ensures f <= x < f + 1.0 / FloatGrid
  {
    (x * FloatGrid).Floor as real / FloatGrid
  }

  predicate IsFloat(x: real) { Narrow(x) == x }

  lemma NarrowIsFloat(x: real)
    ensures IsFloat(Narrow(x))
  {
    var n := (x * FloatGrid).Floor;
    assert Narrow(x) * FloatGrid == n as real;
    assert (Narrow(x) * FloatGrid).Floor == n;
  }

  /** One call of the host's write function: a float written to a port with format 0 (ui:floatProtocol). */
  datatype HostWrite = HostWrite(portIndex: nat, value: real)

  /**
   * The host-side effect of `OnPortValueChanged(i, value)`: the narrowed value
   * is recorded as the host's value and written to the host exactly when a
   * controller is attached and it differs from the last value the host knows.
   */
  function HostAfterChange(host: seq<real>, writes: seq<HostWrite>, hasController: bool, i: nat, value: real)
    : (r: (seq<real>, seq<HostWrite>))
    requires i < |host|
    ensures |r.0| == |host|
    ensures r.1 != writes <==> hasController && Narrow(value) != host[i]
    ensures r.1 != writes ==> r.1 == writes + [HostWrite(i, Narrow(value))] && r.0 == host[i := Narrow(value)]
    ensures r.1 == writes ==> r.0 == host
  {
    var floatValue := Narrow(value);
    if hasController && floatValue != host[i] then (host[i := floatValue], writes + [HostWrite(i, floatValue)])
    else (host, writes)
  }

  /** A value the host already holds is never written back: the echo of a host update is suppressed. */
  lemma EchoSuppressed(host: seq<real>, writes: seq<HostWrite>, hasController: bool, i: nat)
    requires i < |host| && IsFloat(host[i])
    ensures HostAfterChange(host, writes, hasController, i, host[i]) == (host, writes)
  {
  }

  // ---------------------------------------------------------------------------
  // The binding table built by the constructor

  /** A binding cell: its value and, for an input control port, the port index its write-back observer reports. */
  datatype Cell = Cell(value: real, observer: Option<nat>)

  /** The cell the constructor creates for a control port, holding the port's default value. */
  function NewCell(port: PortInfo): (c: Cell)
    ensures c.value == port.defaultValue
    ensures c.observer.Some? <==> port.isInput
    ensures c.observer.Some? ==> c.observer.value == port.index
  {
    Cell(port.defaultValue, if port.isInput then Some(port.index) else None)
  }

  /** The constructor indexes `bindingSites` by each control port's own index, which must lie within the port count. */
  predicate ControlIndicesInRange(ports: seq<PortInfo>)
  {
    forall k :: 0 <= k < |ports| && ports[k].isControl ==> ports[k].index < |ports|
  }

  /** The last control port below n whose index is i. */
  function LastIndexOwner(ports: seq<PortInfo>, i: nat, n: nat): (o: Option<nat>)
    requires n <= |ports|
    ensures o.Some? ==> o.value < n && ports[o.value].isControl && ports[o.value].index == i
    ensures o.Some? ==> forall m :: o.value < m < n ==> !(ports[m].isControl && ports[m].index == i)
    ensures o.None? ==> forall m :: 0 <= m < n ==> !(ports[m].isControl && ports[m].index == i)
  {
    if n == 0 then None
    else if ports[n - 1].isControl && ports[n - 1].index == i then Some(n - 1)
    else LastIndexOwner(ports, i, n - 1)
  }

  /** The last control port below n whose symbol is s. */
  function LastSymbolOwner(ports: seq<PortInfo>, s: string, n: nat): (o: Option<nat>)
    requires n <= |ports|
    ensures o.Some? ==> o.value < n && ports[o.value].isControl && ports[o.value].symbol == s
    ensures o.Some? ==> forall m :: o.value < m < n ==> !(ports[m].isControl && ports[m].symbol == s)
    ensures o.None? ==> forall m :: 0 <= m < n ==> !(ports[m].isControl && ports[m].symbol == s)
  {
    if n == 0 then None
    else if ports[n - 1].isControl && ports[n - 1].symbol == s then Some(n - 1)
    else LastSymbolOwner(ports, s, n - 1)
  }

  /** The host value the constructor records for an index: the owner's default as a float, or 0 when no control port has that index. */
  function InitialHostValue(ports: seq<PortInfo>, owner: Option<nat>): real
    requires owner.Some? ==> owner.value < |ports|
  {
    if owner.Some? then Narrow(ports[owner.value].defaultValue) else 0.0
  }

  /**
   * The containers the constructor fills: cells by creating port, the cell
   * at each port index, the cell for each symbol, the host value at each port
   * index, and the ports whose index was already taken (each of which prints
   * "Error: Duplicate port index.").
   */
  datatype Tables = Tables(
    cells: map<nat, Cell>,
    sites: seq<Option<nat>>,
    symbols: map<string, nat>,
    host: seq<real>,
    duplicates: seq<nat>)

  /** The tables after the constructor's loop has processed the ports below n. */
  function BindFrom(ports: seq<PortInfo>, n: nat): (t: Tables)
    requires n <= |ports| && ControlIndicesInRange(ports)
    ensures |t.sites| == |ports| && |t.host| == |ports|
  {
    if n == 0 then
      Tables(map[], seq(|ports|, _ => None), map[], seq(|ports|, _ => 0.0), [])
    else
      BindStep(ports, BindFrom(ports, n - 1), n - 1)
  }

  /**
   * What the tables hold after the ports below n: a cell for each control
   * port, the last owner of each index and of each symbol, the owner's
   * default as the host value, and a duplicate report for each control port
   * whose index an earlier control port already had.
   */
  lemma {:induction false} BindFromTables(ports: seq<PortInfo>, n: nat)
    requires n <= |ports| && ControlIndicesInRange(ports)
    ensures var t := BindFrom(ports, n);
      && (forall i :: 0 <= i < |ports| ==> t.sites[i] == LastIndexOwner(ports, i, n))
      && (forall i :: 0 <= i < |ports| ==> t.host[i] == InitialHostValue(ports, LastIndexOwner(ports, i, n)))
      && (forall k: nat :: k in t.cells <==> k < n && ports[k].isControl)
      && (forall k :: k in t.cells ==> k < |ports| && t.cells[k] == NewCell(ports[k]))
      && (forall s :: LastSymbolOwner(ports, s, n) == (if s in t.symbols then Some(t.symbols[s]) else None))
      && (forall k: nat {:trigger k in t.duplicates} ::
            k in t.duplicates <==> k < n && ports[k].isControl && LastIndexOwner(ports, ports[k].index, k).Some?)
  {
    if n > 0 {
      BindFromTables(ports, n - 1);
    }
  }

  /** One pass of the constructor's loop: the tables after port k is bound. */
  function BindStep(ports: seq<PortInfo>, t: Tables, k: nat): (r: Tables)
    requires k < |ports| && ControlIndicesInRange(ports) && |t.sites| == |ports| && |t.host| == |ports|
    ensures |r.sites| == |ports| && |r.host| == |ports|
    ensures !ports[k].isControl ==> r == t
    ensures ports[k].isControl ==>
      && r.cells == t.cells[k := NewCell(ports[k])]
      && r.sites[ports[k].index] == Some(k) && ports[k].symbol in r.symbols && r.symbols[ports[k].symbol] == k
      && r.host[ports[k].index] == Narrow(ports[k].defaultValue)
      && (forall j :: 0 <= j < |ports| && j != ports[k].index ==> r.sites[j] == t.sites[j] && r.host[j] == t.host[j])
      && (forall s :: s in t.symbols && s != ports[k].symbol ==> s in r.symbols && r.symbols[s] == t.symbols[s])
      && r.duplicates == t.duplicates + (if t.sites[ports[k].index].Some? then [k] else [])
  {
    var port := ports[k];
    if !port.isControl then t
    else
      Tables(
        t.cells[k := NewCell(port)],
        t.sites[port.index := Some(k)],
        t.symbols[port.symbol := k],
        t.host[port.index := Narrow(port.defaultValue)],
        t.duplicates + (if t.sites[port.index].Some? then [k] else []))
  }

  /** The constructor's loop over the ports (lines 125-148 of Lv2UI.cpp), on local containers. */
  method BindPorts(ports: seq<PortInfo>) returns (t: Tables)
    requires ControlIndicesInRange(ports)
    ensures t == BindFrom(ports, |ports|)
  {
    var cells: map<nat, Cell> := map[];
    var sites: seq<Option<nat>> := seq(|ports|, _ => None);
    var symbols: map<string, nat> := map[];
    var host: seq<real> := seq(|ports|, _ => 0.0);
    var duplicates: seq<nat> := [];
    var i := 0;
    while i < |ports|
      invariant i <= |ports|
      invariant Tables(cells, sites, symbols, host, duplicates) == BindFrom(ports, i)
    {
      ghost var before := Tables(cells, sites, symbols, host, duplicates);
      var port := ports[i];
      if port.isControl {
        var index := port.index;
        if sites[index] != None {
          duplicates := duplicates + [i];
        }
        cells := cells[i := NewCell(port)];
        sites := sites[index := Some(i)];
        symbols := symbols[port.symbol := i];
        host := host[index := Narrow(port.defaultValue)];
      }
      assert Tables(cells, sites, symbols, host, duplicates) == BindStep(ports, before, i);
      i := i + 1;
    }
    t := Tables(cells, sites, symbols, host, duplicates);
  }

  /** Every control port's symbol leads to a cell. */
  lemma EveryControlSymbolBound(ports: seq<PortInfo>, k: nat)
    requires ControlIndicesInRange(ports) && k < |ports| && ports[k].isControl
    ensures ports[k].symbol in BindFrom(ports, |ports|).symbols
  {
    var t := BindFrom(ports, |ports|);
    BindFromTables(ports, |ports|);
    assert LastSymbolOwner(ports, ports[k].symbol, |ports|).Some?;
  }

  /**
   * The table the constructor leaves for a control port k that no later
   * control port shares an index with: the cell at its index is its own, it
   * holds the port's default, the host value is that default as a float, and
   * the cell has a write-back observer exactly when the port is an input.
   */
  lemma {:induction false} OwnCellAtIndex(ports: seq<PortInfo>, k: nat)
    requires ControlIndicesInRange(ports) && k < |ports| && ports[k].isControl
    requires forall m :: k < m < |ports| ==> !(ports[m].isControl && ports[m].index == ports[k].index)
    ensures var t := BindFrom(ports, |ports|);
      && t.sites[ports[k].index] == Some(k)
      && k in t.cells && t.cells[k].value == ports[k].defaultValue
      && t.host[ports[k].index] == Narrow(ports[k].defaultValue)
      && (t.cells[k].observer.Some? <==> ports[k].isInput)
  {
    var t := BindFrom(ports, |ports|);
    BindFromTables(ports, |ports|);
    var o := LastIndexOwner(ports, ports[k].index, |ports|);
    if o != Some(k) {
      assert false;
    }
  }

  /**
   * What holds of the binding table for as long as the UI lives: every
   * binding site and every symbol leads to a cell, the observer of the cell
   * at port index i reports index i, observers report indices within the
   * port count, and every control port's symbol has a cell.
   */
  predicate TablesValid(ports: seq<PortInfo>, t: Tables)
  {
    && |t.sites| == |ports|
    && |t.host| == |ports|
    && (forall i :: 0 <= i < |t.sites| && t.sites[i].Some? ==>
          && t.sites[i].value in t.cells
          && (t.cells[t.sites[i].value].observer.None? || t.cells[t.sites[i].value].observer == Some(i)))
    && (forall s :: s in t.symbols ==> t.symbols[s] in t.cells)
    && (forall c :: c in t.cells && t.cells[c].observer.Some? ==> t.cells[c].observer.value < |ports|)
    && (forall k :: 0 <= k < |ports| && ports[k].isControl ==> ports[k].symbol in t.symbols)
  }

  /** The constructor's tables satisfy the invariant. */
  lemma BoundTablesValid(ports: seq<PortInfo>)
    requires ControlIndicesInRange(ports)
    ensures TablesValid(ports, BindFrom(ports, |ports|))
  {
    var t := BindFrom(ports, |ports|);
    BindFromTables(ports, |ports|);
    forall k | 0 <= k < |ports| && ports[k].isControl ensures ports[k].symbol in t.symbols {
      EveryControlSymbolBound(ports, k);
    }
    forall s | s in t.symbols ensures t.symbols[s] in t.cells {
      assert LastSymbolOwner(ports, s, |ports|) == Some(t.symbols[s]);
    }
  }

  // ---------------------------------------------------------------------------
  // The UI object

  class Lv2UI {
    const plugin: PluginInfo
    var createWindowParameters: CreateWindowParameters
    /** The binding cells, by the position of the port that created each. */
    var cells: map<nat, Cell>
    /** `bindingSites`: the cell at each port index, if any. */
    const bindingSites: seq<Option<nat>>
    /** `bindingSiteMap`: the cell for each control port symbol. */
    const bindingSiteMap: map<string, nat>
    /** `currentHostPortValues`: the last value the host is known to hold for each port index. */
    var currentHostPortValues: seq<real>
    /** Ports whose index duplicated an earlier control port's. */
    const duplicateReports: seq<nat>
    /** Whether `instantiate` has stored a controller (the host's write function is then usable). */
    var hasController: bool
    /** Every call of the host's write function, in order. */
    var writes: seq<HostWrite>

    /** The binding table held by the object. */
    ghost function Table(): Tables
      reads this`cells, this`currentHostPortValues
    {
      Tables(cells, bindingSites, bindingSiteMap, currentHostPortValues, duplicateReports)
    }

    ghost predicate Valid()
      reads this`cells, this`currentHostPortValues
    {
      TablesValid(plugin.ports, Table())
    }

    /**
     * `Lv2UI(pluginInfo, createWindowParameters)`: child-window positioning
     * and the window defaults, then one cell per control port.
     */
    constructor (plugin: PluginInfo, params: CreateWindowParameters)
      requires ControlIndicesInRange(plugin.ports)
      ensures Valid()
      ensures this.plugin == plugin
      ensures createWindowParameters == WithWindowDefaults(params, plugin.name, plugin.pluginLabel)
      ensures Table() == BindFrom(plugin.ports, |plugin.ports|)
      ensures !hasController && writes == []
    {
      this.plugin := plugin;
      createWindowParameters := params.(positioning := ChildWindow);
      var t := BindPorts(plugin.ports);
      cells, bindingSites, bindingSiteMap := t.cells, t.sites, t.symbols;
      currentHostPortValues, duplicateReports := t.host, t.duplicates;
      hasController, writes := false, [];
      new;
      SetCreateWindowDefaults();
      assert Table() == t;
      BoundTablesValid(plugin.ports);
    }

    /**
     * `Lv2UI(pluginInfo, defaultWindowSize)`: the constructor above with
     * default parameters, after which the window size is replaced by the
     * given one and the defaults are applied again.
     */
    constructor WithDefaultSize(plugin: PluginInfo, defaultWindowSize: Size)
      requires ControlIndicesInRange(plugin.ports)
      ensures Valid()
      ensures this.plugin == plugin
      ensures createWindowParameters == WithWindowDefaults(
        WithWindowDefaults(DefaultParameters, plugin.name, plugin.pluginLabel).(size := defaultWindowSize),
        plugin.name, plugin.pluginLabel)
      ensures createWindowParameters.size == if defaultWindowSize == ZeroSize then DefaultWindowSize else defaultWindowSize
      ensures Table() == BindFrom(plugin.ports, |plugin.ports|)
      ensures !hasController && writes == []
    {
      this.plugin := plugin;
      createWindowParameters := DefaultParameters.(positioning := ChildWindow);
      var t := BindPorts(plugin.ports);
      cells, bindingSites, bindingSiteMap := t.cells, t.sites, t.symbols;
      currentHostPortValues, duplicateReports := t.host, t.duplicates;
      hasController, writes := false, [];
      new;
      SetCreateWindowDefaults();
      var sized := createWindowParameters.(size := defaultWindowSize);
      createWindowParameters := sized;
      SetCreateWindowDefaults();
      WindowSizeDefault(sized, plugin.name, plugin.pluginLabel);
      assert Table() == t;
      BoundTablesValid(plugin.ports);
    }

    /** `SetCreateWindowDefaults`, field by field on the stored parameters. */
    method SetCreateWindowDefaults()
      modifies this`createWindowParameters
      ensures createWindowParameters == WithWindowDefaults(old(createWindowParameters), plugin.name, plugin.pluginLabel)
    {
      var was := createWindowParameters;
      createWindowParameters := createWindowParameters.(positioning := ChildWindow);
      if createWindowParameters.size == ZeroSize {
        createWindowParameters := createWindowParameters.(size := DefaultWindowSize);
      }
      if createWindowParameters.minSize == ZeroSize {
        createWindowParameters := createWindowParameters.(minSize := DefaultMinSize);
      }
      if createWindowParameters.maxSize == ZeroSize {
        createWindowParameters := createWindowParameters.(maxSize := DefaultMaxSize);
      }
      if |createWindowParameters.settingsKey| == 0 {
        createWindowParameters := createWindowParameters.(settingsKey := plugin.name);
      }
      if |createWindowParameters.x11Windowclass| == 0 {
        createWindowParameters := createWindowParameters.(x11Windowclass := DefaultWindowClass);
      }
      if |createWindowParameters.gtkApplicationId| == 0 {
        createWindowParameters := createWindowParameters.(gtkApplicationId := DefaultWindowClass);
      }
      if |createWindowParameters.title| == 0 {
        createWindowParameters := createWindowParameters.(title := plugin.name);
      }
      if |createWindowParameters.x11WindowName| == 0 {
        if |plugin.pluginLabel| != 0 {
          createWindowParameters := createWindowParameters.(x11WindowName := plugin.pluginLabel);
        } else {
          createWindowParameters := createWindowParameters.(x11WindowName := plugin.name);
        }
      }
      assert createWindowParameters == CreateWindowParameters(
        ChildWindow, SizeOr(was.size, DefaultWindowSize), SizeOr(was.minSize, DefaultMinSize),
        SizeOr(was.maxSize, DefaultMaxSize), TextOr(was.settingsKey, plugin.name),
        TextOr(was.x11Windowclass, DefaultWindowClass), TextOr(was.gtkApplicationId, DefaultWindowClass),
        TextOr(was.title, plugin.name), TextOr(was.x11WindowName, TextOr(plugin.pluginLabel, plugin.name)));
    }

    /**
     * The part of `instantiate` that stores the host's controller and write
     * function. The host may pass a null controller, which leaves write-back off.
     */
    method AttachController(controllerPresent: bool)
      modifies this`hasController
      ensures hasController == controllerPresent
    {
      hasController := controllerPresent;
    }

    /** `OnPortValueChanged`: the observer of an input port's cell. */
    method OnPortValueChanged(portIndex: nat, value: real)
      requires Valid() && portIndex < |currentHostPortValues|
      modifies this`currentHostPortValues, this`writes
      ensures Valid()
      ensures (currentHostPortValues, writes)
              == HostAfterChange(old(currentHostPortValues), old(writes), hasController, portIndex, value)
    {
      var floatValue := Narrow(value);
      if hasController {
        if floatValue != currentHostPortValues[portIndex] {
          currentHostPortValues := currentHostPortValues[portIndex := floatValue];
          writes := writes + [HostWrite(portIndex, floatValue)];
        }
      }
    }

    /**
     * `set` on cell c: an unchanged value does nothing; a changed value is
     * stored and then reported to the cell's observer, if it has one.
     */
    method SetCell(c: nat, value: real)
      requires Valid() && c in cells
      modifies this`cells, this`currentHostPortValues, this`writes
      ensures Valid()
      ensures cells == old(cells)[c := old(cells)[c].(value := value)]
      ensures old(cells)[c].value == value || old(cells)[c].observer.None? ==>
        currentHostPortValues == old(currentHostPortValues) && writes == old(writes)
      ensures old(cells)[c].value != value && old(cells)[c].observer.Some? ==>
        (currentHostPortValues, writes)
        == HostAfterChange(old(currentHostPortValues), old(writes), hasController, old(cells)[c].observer.value, value)
    {
      var cell := cells[c];
      if cell.value != value {
        cells := cells[c := cell.(value := value)];
        if cell.observer.Some? {
          OnPortValueChanged(cell.observer.value, value);
        }
      }
    }

    /**
     * `ui_port_event`: a float from the host (format 0) for a port index
     * within range is recorded as the host's value and then set on the cell
     * at that index, if there is one. The echo is suppressed: nothing is ever
     * written back to the host.
     */
    method UiPortEvent(portIndex: nat, format: nat, value: real)
      requires Valid()
      requires format == 0 ==> IsFloat(value)
      modifies this`cells, this`currentHostPortValues, this`writes
      ensures Valid()
      ensures writes == old(writes)
      ensures format == 0 && portIndex < |bindingSites| ==>
        && currentHostPortValues == old(currentHostPortValues)[portIndex := value]
        && cells == match bindingSites[portIndex]
                    case Some(c) => old(cells)[c := old(cells)[c].(value := value)]
                    case None => old(cells)
      ensures !(format == 0 && portIndex < |bindingSites|) ==>
        currentHostPortValues == old(currentHostPortValues) && cells == old(cells)
    {
      if format == 0 {
        if portIndex < |bindingSites| {
          currentHostPortValues := currentHostPortValues[portIndex := value];
          var site := bindingSites[portIndex];
          if site.Some? {
            SetCell(site.value, value);
          }
        }
      }
    }

    /** `GetControlProperty`: the cell for a symbol, or the "Key not found." exception. */
    function GetControlProperty(key: string): (r: Result<nat>)
      requires Valid()
      reads this
      ensures r.Failure? <==> key !in bindingSiteMap
      ensures r.Failure? ==> r.message == "Key not found."
      ensures r.Success? ==> r.value == bindingSiteMap[key] && r.value in cells
    {
      if key in bindingSiteMap then Success(bindingSiteMap[key]) else Failure("Key not found.")
    }

    /** `GetControlValue`: the value of the cell for a symbol, or the lookup's exception. */
    function GetControlValue(key: string): (r: Result<real>)
      requires Valid()
      reads this
      ensures r.Failure? <==> key !in bindingSiteMap
      ensures r.Failure? ==> r.message == "Key not found."
      ensures r.Success? ==> r.value == cells[bindingSiteMap[key]].value
    {
      match GetControlProperty(key)
      case Success(c) => Success(cells[c].value)
      case Failure(m) => Failure(m)
    }

    /** `SetControlValue`: sets the cell for a symbol; a later `GetControlValue` of that symbol reads the value back. */
    method SetControlValue(key: string, value: real) returns (r: Outcome)
      requires Valid()
      modifies this`cells, this`currentHostPortValues, this`writes
      ensures Valid()
      ensures r == (if key in bindingSiteMap then Pass else Fail("Key not found."))
      ensures GetControlValue(key) == if key in bindingSiteMap then Success(value) else Failure("Key not found.")
      ensures key !in bindingSiteMap ==>
        cells == old(cells) && currentHostPortValues == old(currentHostPortValues) && writes == old(writes)
      ensures key in bindingSiteMap ==>
        var c := bindingSiteMap[key];
        && c in old(cells)
        && cells == old(cells)[c := old(cells)[c].(value := value)]
        && (old(cells)[c].value == value || old(cells)[c].observer.None? ==>
              currentHostPortValues == old(currentHostPortValues) && writes == old(writes))
        && (old(cells)[c].value != value && old(cells)[c].observer.Some? ==>
              (currentHostPortValues, writes)
              == HostAfterChange(old(currentHostPortValues), old(writes), hasController, old(cells)[c].observer.value, value))
    {
      var property := GetControlProperty(key);
      if property.Failure? {
        return Fail(property.message);
      }
      SetCell(property.value, value);
      r := Pass;
    }

    /**
     * `AddRenderControls`: the elements appended to the container, or the
     * lookup's exception when the right port of a stereo pair has no cell
     * (its kind is never checked, so it need not be a control port).
     */
    method AddRenderControls() returns (r: Result<seq<Widget>>)
      requires Valid()
      ensures r.Failure? <==> MissingPairSymbol(plugin.ports, bindingSiteMap)
      ensures r.Failure? ==> r.message == "Key not found."
      ensures r.Success? ==> r.value == Layout(plugin.ports, plugin.portGroups, |plugin.ports|)
    {
      var ports, groups := plugin.ports, plugin.portGroups;
      var ws: seq<Widget> := [];
      var portGroups: map<string, nat> := map[];
      ScanStart(ports, groups, bindingSiteMap);
      var i := 0;
      while i < |ports|
        invariant Scanned(ports, groups, bindingSiteMap, i, ws, portGroups)
        decreases |ports| - i
      {
        var failed;
        ws, portGroups, i, failed := ScanPort(ports, groups, bindingSiteMap, i, ws, portGroups);
        if failed {
          return Failure("Key not found.");
        }
      }
      ScanDone(ports, groups, bindingSiteMap, ws, portGroups);
      r := Success(ws);
    }
  }

  /** One pass of the loop of `AddRenderControls`, for the port at index `i`. */
  method ScanPort(ports: seq<PortInfo>, groups: seq<PortGroup>, symbols: map<string, nat>, i: nat, ws: seq<Widget>, pg: map<string, nat>)
    returns (ws': seq<Widget>, pg': map<string, nat>, next: nat, failed: bool)
    requires i < |ports| && Scanned(ports, groups, symbols, i, ws, pg)
    ensures failed ==> MissingPairSymbol(ports, symbols)
    ensures !failed ==> i < next && Scanned(ports, groups, symbols, next, ws', pg')
  {
    ws', pg', next, failed := ws, pg, i + 1, false;
    var port := ports[i];
    if port.isControl {
      if |port.portGroup| != 0 {
        if IsVuMeterPair(ports, i) {
          var rightPort := ports[i + 1];
          var text := GroupLabel(groups, port.portGroup);
          if rightPort.symbol !in symbols {
            ScanMissing(ports, symbols, i);
            failed := true;
            return;
          }
          ScanPair(ports, groups, symbols, i, ws, pg);
          ws' := ws + [Stereo(text, i, i + 1)];
          next := i + 2;  // skip the right port
        } else {
          var g := port.portGroup;
          if g in pg {
            var pos := pg[g];
            ScanJoin(ports, groups, symbols, i, ws, pg);
            ws' := ws[pos := AddChild(ws[pos], Control(i))];
          } else {
            var text := GroupLabel(groups, g);
            ScanNewGroup(ports, groups, symbols, i, ws, pg);
            pg' := pg[g := |ws|];
            ws' := ws + [Group(g, text, [Control(i)])];
          }
        }
      } else {
        ScanUngrouped(ports, groups, symbols, i, ws, pg);
        ws' := ws + [Control(i)];
      }
    } else {
      ScanSkip(ports, groups, symbols, i, ws, pg);
    }
  }

  /** The label search of `AddRenderControls`: the name of the first port group with the given URI, or "". */
  method GroupLabel(groups: seq<PortGroup>, uri: string) returns (text: string)
    ensures text == PortGroupName(groups, uri)
  {
    text := "";
    var j := 0;
    while j < |groups|
      invariant j <= |groups|
      invariant text == ""
      invariant PortGroupName(groups, uri) == PortGroupName(groups[j..], uri)
    {
      if groups[j].uri == uri {
        text := groups[j].name;
        break;
      }
      j := j + 1;
    }
  }
}
