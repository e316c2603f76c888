/**
 * The plugin description the UI is built from (one record per port, one per
 * port group), the stereo-meter pairing rule of `Lv2UI::IsVuMeterPair`, and
 * the specification of the control tree `Lv2UI::AddRenderControls` builds.
 *
 * Widgets are abstract tree nodes: the port-view factory that turns a port
 * into a real element is not part of this model, so a node only records which
 * ports it shows.
 */
module Lv2Ports {

  const PortGroupsLeft: string := "http://lv2plug.in/ns/ext/port-groups#left"
  const PortGroupsRight: string := "http://lv2plug.in/ns/ext/port-groups#right"

  /** One entry of `Lv2PluginInfo::ports()`; an empty `portGroup` means "not grouped". */
  datatype PortInfo = PortInfo(
    index: nat,
    symbol: string,
    name: string,
    isControl: bool,
    isInput: bool,
    isOutput: bool,
    defaultValue: real,
    portGroup: string,
    designation: string)

  /** One entry of `Lv2PluginInfo::port_groups()`. */
  datatype PortGroup = PortGroup(uri: string, symbol: string, name: string)

  datatype PluginInfo = PluginInfo(
    name: string,
    pluginLabel: string,
    ports: seq<PortInfo>,
    portGroups: seq<PortGroup>)

  /** A node of the control tree: a port view, a stereo (paired) port view, or a group element. */
  datatype Widget =
    | Control(port: nat)
    | Stereo(text: string, left: nat, right: nat)
    | Group(uri: string, text: string, children: seq<Widget>)

  /** `LvtkGroupElement::AddChild`: a group element with one more child at the end. */
  function AddChild(w: Widget, child: Widget): (r: Widget)
    requires w.Group?
    ensures r.Group? && r.uri == w.uri && r.text == w.text && r.children == w.children + [child]
  {
    Group(w.uri, w.text, w.children + [child])
  }

  // ---------------------------------------------------------------------------
  // Stereo meter pairs

  /**
   * `Lv2UI::IsVuMeterPair`, check by check. The fifth test re-tests the LEFT
   * port's kind where the comment above it says the right port is meant, so
   * the right port's control/output kind is never examined.
   */
  predicate IsVuMeterPair(ports: seq<PortInfo>, i: nat): (pair: bool)
    requires i < |ports|
    ensures pair ==> i + 1 < |ports| && ports[i].designation == PortGroupsLeft && ports[i + 1].designation == PortGroupsRight
    ensures pair ==> ports[i].portGroup == ports[i + 1].portGroup
  {
    var port := ports[i];
    if !port.isControl then false
    else if !port.isOutput then false
    else if port.designation != PortGroupsLeft then false
    else if i + 1 >= |ports| then false
    else if !port.isControl || !port.isOutput then false
    else if ports[i + 1].designation != PortGroupsRight then false
    else if port.portGroup != ports[i + 1].portGroup then false
    else true
  }

  /** The conditions under which a pair is recognised, stated as one conjunction. */
  lemma VuMeterPairExactly(ports: seq<PortInfo>, i: nat)
    requires i < |ports|
    ensures IsVuMeterPair(ports, i) <==>
      && ports[i].isControl && ports[i].isOutput
      && ports[i].designation == PortGroupsLeft
      && i + 1 < |ports|
      && ports[i + 1].designation == PortGroupsRight
      && ports[i].portGroup == ports[i + 1].portGroup
  {
  }

  /** The right-hand port of a pair always carries the right designation, so it never opens a pair itself. */
  lemma RightOfPairIsNotLeft(ports: seq<PortInfo>, i: nat)
    requires i + 1 < |ports| && IsVuMeterPair(ports, i)
    ensures ports[i + 1].designation == PortGroupsRight
    ensures !IsVuMeterPair(ports, i + 1)
  {
    assert PortGroupsLeft[37] != PortGroupsRight[37];
  }

  // ---------------------------------------------------------------------------
  // Classification of ports by AddRenderControls

  /** Port i is rendered as the left half of a stereo element. */
  predicate StartsPair(ports: seq<PortInfo>, i: nat)
    requires i < |ports|
    ensures StartsPair(ports, i) ==> i + 1 < |ports|
  {
    ports[i].isControl && ports[i].portGroup != "" && IsVuMeterPair(ports, i)
  }

  /** Port i is the right half of a stereo element, which the loop steps over. */
  predicate SkippedRight(ports: seq<PortInfo>, i: nat)
    requires i < |ports|
  {
    0 < i && StartsPair(ports, i - 1)
  }

  /** Port i is rendered as a child of the group element for its port group. */
  predicate GroupMember(ports: seq<PortInfo>, i: nat)
    requires i < |ports|
  {
    ports[i].isControl && ports[i].portGroup != "" && !StartsPair(ports, i) && !SkippedRight(ports, i)
  }

  /** The positions below n of the members of group g, in port order. */
  function GroupMembers(ports: seq<PortInfo>, g: string, n: nat): (ms: seq<nat>)
    requires n <= |ports|
    ensures forall a :: 0 <= a < |ms| ==> ms[a] < n
    ensures forall k: nat {:trigger k in ms} ::
      k in ms <==> k < n && GroupMember(ports, k) && ports[k].portGroup == g
    ensures forall a, b :: 0 <= a < b < |ms| ==> ms[a] < ms[b]
  {
    if n == 0 then []
    else GroupMembers(ports, g, n - 1)
         + (if GroupMember(ports, n - 1) && ports[n - 1].portGroup == g then [n - 1] else [])
  }

  /**
   * Port i adds an element directly to the container: an ungrouped control,
   * the left port of a pair, or the first member of its group (whose group
   * element is created and appended at that point).
   */
  predicate LeadsTopLevel(ports: seq<PortInfo>, i: nat)
    requires i < |ports|
  {
    && ports[i].isControl
    && !SkippedRight(ports, i)
    && (ports[i].portGroup == ""
        || StartsPair(ports, i)
        || GroupMembers(ports, ports[i].portGroup, i) == [])
  }

  /** The positions below n that add a top-level element, in port order. */
  function Leaders(ports: seq<PortInfo>, n: nat): (ls: seq<nat>)
    requires n <= |ports|
    ensures forall a :: 0 <= a < |ls| ==> ls[a] < n
    ensures forall k: nat {:trigger k in ls} :: k in ls <==> k < n && LeadsTopLevel(ports, k)
    ensures forall a, b :: 0 <= a < b < |ls| ==> ls[a] < ls[b]
  {
    if n == 0 then []
    else Leaders(ports, n - 1) + (if LeadsTopLevel(ports, n - 1) then [n - 1] else [])
  }

  /**
   * The label of a group or stereo element: the name of the FIRST port-group
   * entry whose URI matches, or the empty string when none does.
   */
  function PortGroupName(groups: seq<PortGroup>, uri: string): (name: string)
    ensures (forall k :: 0 <= k < |groups| ==> groups[k].uri != uri) ==> name == ""
    ensures forall k :: 0 <= k < |groups| && groups[k].uri == uri
                        && (forall m :: 0 <= m < k ==> groups[m].uri != uri)
                        ==> name == groups[k].name
  {
    if |groups| == 0 then ""
    else if groups[0].uri == uri then groups[0].name
    else PortGroupName(groups[1..], uri)
  }

  function Controls(ms: seq<nat>): (ws: seq<Widget>)
    ensures |ws| == |ms|
    ensures forall j :: 0 <= j < |ms| ==> ws[j] == Control(ms[j])
  {
    seq(|ms|, j requires 0 <= j < |ms| => Control(ms[j]))
  }

  /** The top-level element port i leads once ports below n have been processed. */
  function ElementFor(ports: seq<PortInfo>, groups: seq<PortGroup>, i: nat, n: nat): (w: Widget)
    requires i < |ports| && n <= |ports|
    ensures w.Control? <==> ports[i].portGroup == ""
    ensures w.Control? ==> w.port == i
    ensures w.Stereo? ==> w.left == i && w.right == i + 1 && w.text == PortGroupName(groups, ports[i].portGroup)
    ensures w.Group? ==> w.uri == ports[i].portGroup && w.text == PortGroupName(groups, w.uri)
  {
    var g := ports[i].portGroup;
    if g == "" then Control(i)
    else if StartsPair(ports, i) then Stereo(PortGroupName(groups, g), i, i + 1)
    else Group(g, PortGroupName(groups, g), Controls(GroupMembers(ports, g, n)))
  }

  /** The elements AddRenderControls appends to the container after processing the ports below n. */
  function Layout(ports: seq<PortInfo>, groups: seq<PortGroup>, n: nat): (ws: seq<Widget>)
    requires n <= |ports|
    ensures |ws| == |Leaders(ports, n)|
  {
    var ls := Leaders(ports, n);
    seq(|ls|, j requires 0 <= j < |ls| => ElementFor(ports, groups, ls[j], n))
  }

  // ---------------------------------------------------------------------------
  // What the layout promises

  lemma LeaderAt(ports: seq<PortInfo>, k: nat) returns (j: nat)
    requires k < |ports| && LeadsTopLevel(ports, k)
    ensures j < |Leaders(ports, |ports|)| && Leaders(ports, |ports|)[j] == k
  {
    var ls := Leaders(ports, |ports|);
    assert k in ls;
    j :| 0 <= j < |ls| && ls[j] == k;
  }

  /** An earlier member of group g makes the member list of g non-empty at every later point. */
  lemma EarlierMemberSeen(ports: seq<PortInfo>, g: string, k: nat, n: nat)
    requires k < n <= |ports| && GroupMember(ports, k) && ports[k].portGroup == g
    ensures GroupMembers(ports, g, n) != []
  {
    assert k in GroupMembers(ports, g, n);
  }

  /** The port after a pair's left port is grouped and never opens a pair itself. */
  lemma SkippedIsGroupedRight(ports: seq<PortInfo>, k: nat)
    requires k < |ports|
    ensures SkippedRight(ports, k) ==> ports[k].portGroup != "" && !StartsPair(ports, k)
  {
    if 0 < k && StartsPair(ports, k - 1) {
      RightOfPairIsNotLeft(ports, k - 1);
    }
  }

  /** No member of a group precedes the first one. */
  lemma FirstMemberIsFirst(ports: seq<PortInfo>, g: string, n: nat)
    requires n <= |ports| && GroupMembers(ports, g, n) != []
    ensures GroupMembers(ports, g, GroupMembers(ports, g, n)[0]) == []
  {
    var ms := GroupMembers(ports, g, n);
    var early := GroupMembers(ports, g, ms[0]);
    if early != [] {
      HeadIsElement(early);
      assert false;
    }
  }

  lemma HeadIsElement(s: seq<nat>)
    ensures s != [] ==> s[0] in s
  {
  }

  /** Non-control ports produce nothing: every element and every group child is led by a control port. */
  lemma {:induction false} LayoutShowsOnlyControls(ports: seq<PortInfo>, groups: seq<PortGroup>, j: nat)
    requires j < |Layout(ports, groups, |ports|)|
    ensures var w := Layout(ports, groups, |ports|)[j];
      && (w.Control? ==> ports[w.port].isControl && ports[w.port].portGroup == "")
      && (w.Stereo? ==> w.left + 1 == w.right < |ports| && StartsPair(ports, w.left))
      && (w.Group? ==> forall c :: c in w.children ==>
            c.Control? && c.port < |ports| && GroupMember(ports, c.port) && ports[c.port].portGroup == w.uri)
  {
    var ls := Leaders(ports, |ports|);
    var k := ls[j];
    assert k in ls;
    var w := Layout(ports, groups, |ports|)[j];
    if w.Group? {
      var ms := GroupMembers(ports, ports[k].portGroup, |ports|);
      forall c | c in w.children
        ensures c.Control? && c.port < |ports| && GroupMember(ports, c.port) && ports[c.port].portGroup == w.uri
      {
        var a :| 0 <= a < |w.children| && w.children[a] == c;
        assert ms[a] in ms;
      }
    }
  }

  /** Each group URI has exactly one group element. */
  lemma {:induction false} LayoutGroupsUnique(ports: seq<PortInfo>, groups: seq<PortGroup>, a: nat, b: nat)
    requires a < b < |Layout(ports, groups, |ports|)|
    requires Layout(ports, groups, |ports|)[a].Group? && Layout(ports, groups, |ports|)[b].Group?
    ensures Layout(ports, groups, |ports|)[a].uri != Layout(ports, groups, |ports|)[b].uri
  {
    var ls := Leaders(ports, |ports|);
    var ka, kb := ls[a], ls[b];
    assert ka in ls && kb in ls;
    assert ka < kb;
    if ports[ka].portGroup == ports[kb].portGroup {
      EarlierMemberSeen(ports, ports[kb].portGroup, ka, kb);
      assert false;
    }
  }

  /**
   * Where every control port goes: an ungrouped port is a top-level control,
   * a pair's left port a top-level stereo element naming its right neighbour,
   * and a group member a child of the one group element for its URI.
   */
  lemma {:induction false} LayoutPlacesEveryControl(ports: seq<PortInfo>, groups: seq<PortGroup>, k: nat)
    requires k < |ports| && ports[k].isControl
    ensures var ws := Layout(ports, groups, |ports|);
      && (ports[k].portGroup == "" ==> Control(k) in ws)
      && (StartsPair(ports, k) ==> Stereo(PortGroupName(groups, ports[k].portGroup), k, k + 1) in ws)
      && (GroupMember(ports, k) ==>
            exists j :: 0 <= j < |ws| && ws[j].Group?
              && ws[j].uri == ports[k].portGroup
              && ws[j].text == PortGroupName(groups, ports[k].portGroup)
              && Control(k) in ws[j].children)
  {
    var ws := Layout(ports, groups, |ports|);
    var g := ports[k].portGroup;
    if g == "" || StartsPair(ports, k) {
      SkippedIsGroupedRight(ports, k);
      var j := LeaderAt(ports, k);
      assert ws[j] == ElementFor(ports, groups, k, |ports|);
    }
    if GroupMember(ports, k) {
      var ms := GroupMembers(ports, g, |ports|);
      assert k in ms;
      var first := ms[0];
      assert first in ms;
      FirstMemberIsFirst(ports, g, |ports|);
      var j := LeaderAt(ports, first);
      assert ws[j] == Group(g, PortGroupName(groups, g), Controls(ms));
      var a :| 0 <= a < |ms| && ms[a] == k;
      assert ws[j].children[a] == Control(k);
    }
  }

  /** Top-level elements appear in the order of the ports that lead them. */
  lemma {:induction false} LayoutKeepsPortOrder(ports: seq<PortInfo>, groups: seq<PortGroup>, a: nat, b: nat)
    requires a < b < |Layout(ports, groups, |ports|)|
    ensures Leaders(ports, |ports|)[a] < Leaders(ports, |ports|)[b]
    ensures var ws := Layout(ports, groups, |ports|);
      ws[a].Control? && ws[b].Control? ==> ws[a].port < ws[b].port
  {
  }

  // ---------------------------------------------------------------------------
  // How the layout grows by one port (used by the loop of AddRenderControls)

  /** The elements led by the ports below i, as the loop of AddRenderControls keeps them. */
  ghost predicate LaidOut(ports: seq<PortInfo>, groups: seq<PortGroup>, i: nat, ws: seq<Widget>)
    requires i <= |ports|
  {
    var ls := Leaders(ports, i);
    |ws| == |ls| && forall j :: 0 <= j < |ws| ==> ws[j] == ElementFor(ports, groups, ls[j], i)
  }

  lemma LaidOutIsLayout(ports: seq<PortInfo>, groups: seq<PortGroup>, i: nat, ws: seq<Widget>)
    requires i <= |ports| && LaidOut(ports, groups, i, ws)
    ensures ws == Layout(ports, groups, i)
  {
  }

  /** A port that is no group member leaves every element below it as it was. */
  lemma ElementsKept(ports: seq<PortInfo>, groups: seq<PortGroup>, i: nat, ws: seq<Widget>)
    requires i < |ports| && !GroupMember(ports, i)
    requires LaidOut(ports, groups, i, ws)
    ensures forall g :: GroupMembers(ports, g, i + 1) == GroupMembers(ports, g, i)
    ensures forall j :: 0 <= j < |ws| ==> ws[j] == ElementFor(ports, groups, Leaders(ports, i)[j], i + 1)
  {
    var ls := Leaders(ports, i);
    forall j | 0 <= j < |ws| ensures ws[j] == ElementFor(ports, groups, ls[j], i + 1) {
      assert ls[j] in ls;
      var g := ports[ls[j]].portGroup;
      assert GroupMembers(ports, g, i + 1) == GroupMembers(ports, g, i);
    }
  }

  /** A port that adds nothing: not a control, or the skipped right half of a pair. */
  lemma {:induction false} LaidOutSkip(ports: seq<PortInfo>, groups: seq<PortGroup>, i: nat, ws: seq<Widget>)
    requires i < |ports| && (!ports[i].isControl || SkippedRight(ports, i))
    requires LaidOut(ports, groups, i, ws)
    ensures LaidOut(ports, groups, i + 1, ws)
  {
    ElementsKept(ports, groups, i, ws);
    assert Leaders(ports, i + 1) == Leaders(ports, i);
  }

  /** An ungrouped control port appends its own control. */
  lemma {:induction false} LaidOutUngrouped(ports: seq<PortInfo>, groups: seq<PortGroup>, i: nat, ws: seq<Widget>)
    requires i < |ports| && ports[i].isControl && ports[i].portGroup == "" && !SkippedRight(ports, i)
    requires LaidOut(ports, groups, i, ws)
    ensures LaidOut(ports, groups, i + 1, ws + [Control(i)])
  {
    ElementsKept(ports, groups, i, ws);
    assert Leaders(ports, i + 1) == Leaders(ports, i) + [i];
  }

  /** The left port of a pair appends one stereo element, and its right neighbour adds nothing. */
  lemma {:induction false} LaidOutPair(ports: seq<PortInfo>, groups: seq<PortGroup>, i: nat, ws: seq<Widget>)
    requires i < |ports| && StartsPair(ports, i) && !SkippedRight(ports, i)
    requires LaidOut(ports, groups, i, ws)
    ensures i + 2 <= |ports|
    ensures LaidOut(ports, groups, i + 2, ws + [Stereo(PortGroupName(groups, ports[i].portGroup), i, i + 1)])
  {
    var ws' := ws + [Stereo(PortGroupName(groups, ports[i].portGroup), i, i + 1)];
    ElementsKept(ports, groups, i, ws);
    assert Leaders(ports, i + 1) == Leaders(ports, i) + [i];
    assert LaidOut(ports, groups, i + 1, ws');
    assert SkippedRight(ports, i + 1);
    LaidOutSkip(ports, groups, i + 1, ws');
  }

  /** An element whose group did not gain a member reads the same one port later. */
  lemma ElementStable(ports: seq<PortInfo>, groups: seq<PortGroup>, k: nat, i: nat)
    requires k < |ports| && i < |ports|
    requires ports[k].portGroup == "" || StartsPair(ports, k)
             || !(GroupMember(ports, i) && ports[i].portGroup == ports[k].portGroup)
    ensures ElementFor(ports, groups, k, i + 1) == ElementFor(ports, groups, k, i)
  {
    var g := ports[k].portGroup;
    assert GroupMember(ports, i) && ports[i].portGroup == g
      ==> GroupMembers(ports, g, i + 1) == GroupMembers(ports, g, i) + [i];
  }

  /** A member of group g below n shows in the member list of g at n. */
  lemma MemberSeen(ports: seq<PortInfo>, g: string, k: nat, n: nat)
    requires k < n <= |ports|
    ensures GroupMember(ports, k) && ports[k].portGroup == g ==> k in GroupMembers(ports, g, n)
  {
  }

  /** The group element of group g is led by the first member of g. */
  lemma GroupLeaderIsFirstMember(ports: seq<PortInfo>, g: string, k: nat, i: nat)
    requires k < i <= |ports|
    ensures GroupMember(ports, k) && ports[k].portGroup == g && GroupMembers(ports, g, k) == []
            ==> GroupMembers(ports, g, i) != [] && GroupMembers(ports, g, i)[0] == k
  {
    if GroupMember(ports, k) && ports[k].portGroup == g && GroupMembers(ports, g, k) == [] {
      var ms := GroupMembers(ports, g, i);
      assert k in ms;
      HeadIsElement(ms);
      var f := ms[0];
      assert f !in GroupMembers(ports, g, k);
      var a :| 0 <= a < |ms| && ms[a] == k;
      assert f <= k;
    }
  }

  /** Leaders other than the first member of port i's group are unaffected by port i. */
  lemma LeaderStable(ports: seq<PortInfo>, groups: seq<PortGroup>, k: nat, i: nat)
    requires k < i < |ports| && LeadsTopLevel(ports, k) && GroupMember(ports, i)
    requires GroupMembers(ports, ports[i].portGroup, i) == []
             || k != GroupMembers(ports, ports[i].portGroup, i)[0]
    ensures ElementFor(ports, groups, k, i + 1) == ElementFor(ports, groups, k, i)
  {
    var g := ports[i].portGroup;
    MemberSeen(ports, g, k, i);
    GroupLeaderIsFirstMember(ports, g, k, i);
    ElementStable(ports, groups, k, i);
  }

  lemma NewGroupElement(ports: seq<PortInfo>, groups: seq<PortGroup>, i: nat)
    requires i < |ports| && GroupMember(ports, i) && GroupMembers(ports, ports[i].portGroup, i) == []
    ensures ElementFor(ports, groups, i, i + 1)
            == Group(ports[i].portGroup, PortGroupName(groups, ports[i].portGroup), [Control(i)])
  {
    var g := ports[i].portGroup;
    assert g != "" && !StartsPair(ports, i);
    var ms := GroupMembers(ports, g, i + 1);
    assert ms == [] + [i];
    var cs := Controls(ms);
    assert |cs| == 1 && cs[0] == Control(i);
    assert cs == [Control(i)];
    assert ElementFor(ports, groups, i, i + 1) == Group(g, PortGroupName(groups, g), cs);
  }

  /** The first member of a group changes none of the elements already laid out. */
  lemma NewGroupKeepsElements(ports: seq<PortInfo>, groups: seq<PortGroup>, i: nat, ws: seq<Widget>)
    requires i < |ports| && GroupMember(ports, i) && GroupMembers(ports, ports[i].portGroup, i) == []
    requires LaidOut(ports, groups, i, ws)
    ensures forall j :: 0 <= j < |ws| ==> ws[j] == ElementFor(ports, groups, Leaders(ports, i)[j], i + 1)
  {
    var ls := Leaders(ports, i);
    forall j | 0 <= j < |ws| ensures ws[j] == ElementFor(ports, groups, ls[j], i + 1) {
      assert ls[j] in ls;
      LeaderStable(ports, groups, ls[j], i);
    }
  }

  /** The first member of a group appends a new group element holding just that member. */
  lemma {:induction false} LaidOutNewGroup(ports: seq<PortInfo>, groups: seq<PortGroup>, i: nat, ws: seq<Widget>)
    requires i < |ports| && GroupMember(ports, i) && GroupMembers(ports, ports[i].portGroup, i) == []
    requires LaidOut(ports, groups, i, ws)
    ensures LaidOut(ports, groups, i + 1,
      ws + [Group(ports[i].portGroup, PortGroupName(groups, ports[i].portGroup), [Control(i)])])
  {
    NewGroupKeepsElements(ports, groups, i, ws);
    NewGroupElement(ports, groups, i);
    assert LeadsTopLevel(ports, i);
    assert Leaders(ports, i + 1) == Leaders(ports, i) + [i];
  }

  /** A later member of a group changes no element other than its group's. */
  lemma JoinKeepsOthers(ports: seq<PortInfo>, groups: seq<PortGroup>, i: nat, ws: seq<Widget>, pos: nat)
    requires i < |ports| && GroupMember(ports, i)
    requires GroupMembers(ports, ports[i].portGroup, i) != []
    requires pos < |Leaders(ports, i)| && Leaders(ports, i)[pos] == GroupMembers(ports, ports[i].portGroup, i)[0]
    requires LaidOut(ports, groups, i, ws)
    ensures forall j :: 0 <= j < |ws| && j != pos ==> ws[j] == ElementFor(ports, groups, Leaders(ports, i)[j], i + 1)
  {
    var ls := Leaders(ports, i);
    forall j | 0 <= j < |ws| && j != pos ensures ws[j] == ElementFor(ports, groups, ls[j], i + 1) {
      assert ls[j] in ls;
      LeaderStable(ports, groups, ls[j], i);
    }
  }

  /** The group element led by the first member gains the new member as its last child. */
  lemma JoinedElement(ports: seq<PortInfo>, groups: seq<PortGroup>, i: nat, f: nat)
    requires i < |ports| && GroupMember(ports, i)
    requires GroupMembers(ports, ports[i].portGroup, i) != [] && f == GroupMembers(ports, ports[i].portGroup, i)[0]
    ensures f < i
    ensures ElementFor(ports, groups, f, i).Group?
    ensures ElementFor(ports, groups, f, i + 1)
            == AddChild(ElementFor(ports, groups, f, i), Control(i))
  {
    var g := ports[i].portGroup;
    var ms := GroupMembers(ports, g, i);
    HeadIsElement(ms);
    assert f in ms;
    assert ports[f].portGroup == g != "" && !StartsPair(ports, f);
    MembersGrow(ports, g, i);
    ControlsAppend(ms, i);
  }

  lemma MembersGrow(ports: seq<PortInfo>, g: string, i: nat)
    requires i < |ports| && GroupMember(ports, i) && ports[i].portGroup == g
    ensures GroupMembers(ports, g, i + 1) == GroupMembers(ports, g, i) + [i]
  {
  }

  lemma ControlsAppend(ms: seq<nat>, k: nat)
    ensures Controls(ms + [k]) == Controls(ms) + [Control(k)]
  {
  }

  /** A later member of a group is added to the existing group element at position pos. */
  lemma {:induction false} LaidOutJoinGroup(ports: seq<PortInfo>, groups: seq<PortGroup>, i: nat, ws: seq<Widget>, pos: nat)
    requires i < |ports| && GroupMember(ports, i)
    requires GroupMembers(ports, ports[i].portGroup, i) != []
    requires pos < |Leaders(ports, i)| && Leaders(ports, i)[pos] == GroupMembers(ports, ports[i].portGroup, i)[0]
    requires LaidOut(ports, groups, i, ws)
    ensures pos < |ws| && ws[pos].Group?
    ensures LaidOut(ports, groups, i + 1, ws[pos := AddChild(ws[pos], Control(i))])
  {
    var ls := Leaders(ports, i);
    JoinKeepsOthers(ports, groups, i, ws, pos);
    JoinedElement(ports, groups, i, ls[pos]);
    assert Leaders(ports, i + 1) == ls;
  }

  /** The port after port i is not the skipped half of a pair, unless port i opens one. */
  lemma NextNotSkipped(ports: seq<PortInfo>, i: nat)
    requires i < |ports| && !StartsPair(ports, i)
    ensures i + 1 < |ports| ==> !SkippedRight(ports, i + 1)
  {
  }

  /** After a pair the loop resumes two ports on, at a port that opens no pair half-way. */
  lemma PairEndsCleanly(ports: seq<PortInfo>, i: nat)
    requires i < |ports| && StartsPair(ports, i)
    ensures i + 1 < |ports| && !StartsPair(ports, i + 1)
    ensures i + 2 < |ports| ==> !SkippedRight(ports, i + 2)
  {
    RightOfPairIsNotLeft(ports, i);
  }

  /**
   * The loop's map from group URI to element position: it holds exactly the
   * groups that already have a member, each at the position of the element
   * its first member leads.
   */
  ghost predicate GroupsIndexed(ports: seq<PortInfo>, i: nat, pg: map<string, nat>)
    requires i <= |ports|
  {
    GroupsMapped(ports, i, pg) && GroupsPlaced(ports, i, pg)
  }

  ghost predicate GroupsMapped(ports: seq<PortInfo>, i: nat, pg: map<string, nat>)
    requires i <= |ports|
  {
    forall g :: g in pg <==> GroupMembers(ports, g, i) != []
  }

  ghost predicate GroupsPlaced(ports: seq<PortInfo>, i: nat, pg: map<string, nat>)
    requires i <= |ports|
  {
    forall g :: g in pg ==>
      && pg[g] < |Leaders(ports, i)| && GroupMembers(ports, g, i) != []
      && Leaders(ports, i)[pg[g]] == GroupMembers(ports, g, i)[0]
  }

  lemma LeadersGrow(ports: seq<PortInfo>, i: nat)
    requires i < |ports|
    ensures Leaders(ports, i + 1) == Leaders(ports, i) + (if LeadsTopLevel(ports, i) then [i] else [])
  {
  }

  /** A port that is no group member leaves the map valid. */
  lemma GroupsIndexedKept(ports: seq<PortInfo>, i: nat, pg: map<string, nat>)
    requires i < |ports| && !GroupMember(ports, i) && GroupsIndexed(ports, i, pg)
    ensures GroupsIndexed(ports, i + 1, pg)
  {
    LeadersGrow(ports, i);
    assert forall g :: GroupMembers(ports, g, i + 1) == GroupMembers(ports, g, i);
  }

  /** Neither port of a pair is a group member, so the map stays valid across both. */
  lemma GroupsIndexedPair(ports: seq<PortInfo>, i: nat, pg: map<string, nat>)
    requires i < |ports| && StartsPair(ports, i) && GroupsIndexed(ports, i, pg)
    ensures i + 2 <= |ports| && GroupsIndexed(ports, i + 2, pg)
  {
    GroupsIndexedKept(ports, i, pg);
    assert SkippedRight(ports, i + 1);
    GroupsIndexedKept(ports, i + 1, pg);
  }

  /** Port i changes no member list but that of its own group, and that one only if it is a member. */
  lemma MembersOther(ports: seq<PortInfo>, g: string, i: nat)
    requires i < |ports| && !(GroupMember(ports, i) && ports[i].portGroup == g)
    ensures GroupMembers(ports, g, i + 1) == GroupMembers(ports, g, i)
  {
  }

  /** A later member of a mapped group leaves the map valid. */
  lemma GroupsIndexedJoin(ports: seq<PortInfo>, i: nat, pg: map<string, nat>)
    requires i < |ports| && GroupMember(ports, i) && ports[i].portGroup in pg && GroupsIndexed(ports, i, pg)
    ensures GroupsIndexed(ports, i + 1, pg)
  {
    var g0 := ports[i].portGroup;
    var ls := Leaders(ports, i);
    assert !LeadsTopLevel(ports, i);
    LeadersGrow(ports, i);
    assert Leaders(ports, i + 1) == ls;
    forall g ensures g in pg <==> GroupMembers(ports, g, i + 1) != [] {
      if g == g0 { MembersGrow(ports, g0, i); } else { MembersOther(ports, g, i); }
    }
    forall g | g in pg
      ensures pg[g] < |ls| && ls[pg[g]] == GroupMembers(ports, g, i + 1)[0]
    {
      if g == g0 { MembersGrow(ports, g0, i); } else { MembersOther(ports, g, i); }
    }
  }

  /** The first member of a group enters the map at the position of the element it appends. */
  lemma GroupsIndexedNew(ports: seq<PortInfo>, i: nat, pg: map<string, nat>)
    requires i < |ports| && GroupMember(ports, i) && ports[i].portGroup !in pg && GroupsIndexed(ports, i, pg)
    ensures GroupMembers(ports, ports[i].portGroup, i) == []
    ensures GroupsIndexed(ports, i + 1, pg[ports[i].portGroup := |Leaders(ports, i)|])
  {
    NewGroupDomain(ports, i, pg);
    NewGroupPositions(ports, i, pg);
  }

  lemma NewGroupDomain(ports: seq<PortInfo>, i: nat, pg: map<string, nat>)
    requires i < |ports| && GroupMember(ports, i) && ports[i].portGroup !in pg && GroupsIndexed(ports, i, pg)
    ensures GroupMembers(ports, ports[i].portGroup, i) == []
    ensures GroupsMapped(ports, i + 1, pg[ports[i].portGroup := |Leaders(ports, i)|])
  {
    var g0 := ports[i].portGroup;
    var pg' := pg[g0 := |Leaders(ports, i)|];
    forall g ensures g in pg' <==> GroupMembers(ports, g, i + 1) != [] {
      if g == g0 { MembersGrow(ports, g0, i); } else { MembersOther(ports, g, i); }
    }
  }

  lemma NewGroupPositions(ports: seq<PortInfo>, i: nat, pg: map<string, nat>)
    requires i < |ports| && GroupMember(ports, i) && ports[i].portGroup !in pg && GroupsIndexed(ports, i, pg)
    ensures GroupsPlaced(ports, i + 1, pg[ports[i].portGroup := |Leaders(ports, i)|])
  {
    var g0 := ports[i].portGroup;
    var pg' := pg[g0 := |Leaders(ports, i)|];
    forall g | g in pg'
      ensures && pg'[g] < |Leaders(ports, i + 1)| && GroupMembers(ports, g, i + 1) != []
              && Leaders(ports, i + 1)[pg'[g]] == GroupMembers(ports, g, i + 1)[0]
    {
      if g == g0 {
        PlacedSelf(ports, i, pg);
      } else {
        PlacedOther(ports, i, pg, g);
      }
    }
  }

  lemma PlacedSelf(ports: seq<PortInfo>, i: nat, pg: map<string, nat>)
    requires i < |ports| && GroupMember(ports, i) && ports[i].portGroup !in pg && GroupsMapped(ports, i, pg)
    ensures var n := |Leaders(ports, i)|;
      && n < |Leaders(ports, i + 1)| && GroupMembers(ports, ports[i].portGroup, i + 1) != []
      && Leaders(ports, i + 1)[n] == GroupMembers(ports, ports[i].portGroup, i + 1)[0]
  {
    var g0 := ports[i].portGroup;
    assert LeadsTopLevel(ports, i);
    LeadersGrow(ports, i);
    MembersGrow(ports, g0, i);
  }

  lemma PlacedOther(ports: seq<PortInfo>, i: nat, pg: map<string, nat>, g: string)
    requires i < |ports| && GroupsPlaced(ports, i, pg) && g in pg
    requires !(GroupMember(ports, i) && ports[i].portGroup == g)
    ensures && pg[g] < |Leaders(ports, i + 1)| && GroupMembers(ports, g, i + 1) != []
            && Leaders(ports, i + 1)[pg[g]] == GroupMembers(ports, g, i + 1)[0]
  {
    LeadersGrow(ports, i);
    MembersOther(ports, g, i);
  }

  // ---------------------------------------------------------------------------
  // One pass of the loop of AddRenderControls

  /**
   * The loop's state after the ports below i: i is not the skipped half of a
   * pair, the elements so far are laid out, the group map is up to date, and
   * every pair met so far found its right port's symbol among `symbols`.
   */
  ghost predicate Scanned(ports: seq<PortInfo>, groups: seq<PortGroup>, symbols: map<string, nat>,
                          i: nat, ws: seq<Widget>, pg: map<string, nat>)
  {
    && i <= |ports|
    && (i < |ports| ==> !SkippedRight(ports, i))
    && LaidOut(ports, groups, i, ws)
    && GroupsIndexed(ports, i, pg)
    && PairsBound(ports, symbols, i)
  }

  predicate PairsBound(ports: seq<PortInfo>, symbols: map<string, nat>, i: nat)
    requires i <= |ports|
  {
    forall k :: 0 <= k < i && StartsPair(ports, k) ==> ports[k + 1].symbol in symbols
  }

  /** Some stereo pair's right port has no entry in `symbols`. */
  predicate MissingPairSymbol(ports: seq<PortInfo>, symbols: map<string, nat>)
  {
    exists k :: 0 <= k < |ports| && StartsPair(ports, k) && ports[k + 1].symbol !in symbols
  }

  lemma ScanStart(ports: seq<PortInfo>, groups: seq<PortGroup>, symbols: map<string, nat>)
    ensures Scanned(ports, groups, symbols, 0, [], map[])
  {
  }

  lemma ScanDone(ports: seq<PortInfo>, groups: seq<PortGroup>, symbols: map<string, nat>, ws: seq<Widget>, pg: map<string, nat>)
    requires Scanned(ports, groups, symbols, |ports|, ws, pg)
    ensures ws == Layout(ports, groups, |ports|)
    ensures !MissingPairSymbol(ports, symbols)
  {
    LaidOutIsLayout(ports, groups, |ports|, ws);
  }

  lemma ScanMissing(ports: seq<PortInfo>, symbols: map<string, nat>, i: nat)
    requires i + 1 < |ports| && ports[i].isControl && ports[i].portGroup != "" && IsVuMeterPair(ports, i)
    requires ports[i + 1].symbol !in symbols
    ensures MissingPairSymbol(ports, symbols)
  {
    assert StartsPair(ports, i);
  }

  lemma ScanSkip(ports: seq<PortInfo>, groups: seq<PortGroup>, symbols: map<string, nat>,
                 i: nat, ws: seq<Widget>, pg: map<string, nat>)
    requires i < |ports| && !ports[i].isControl && Scanned(ports, groups, symbols, i, ws, pg)
    ensures Scanned(ports, groups, symbols, i + 1, ws, pg)
  {
    LaidOutSkip(ports, groups, i, ws);
    GroupsIndexedKept(ports, i, pg);
    NextNotSkipped(ports, i);
  }

  lemma ScanUngrouped(ports: seq<PortInfo>, groups: seq<PortGroup>, symbols: map<string, nat>,
                      i: nat, ws: seq<Widget>, pg: map<string, nat>)
    requires i < |ports| && ports[i].isControl && ports[i].portGroup == ""
    requires Scanned(ports, groups, symbols, i, ws, pg)
    ensures Scanned(ports, groups, symbols, i + 1, ws + [Control(i)], pg)
  {
    LaidOutUngrouped(ports, groups, i, ws);
    GroupsIndexedKept(ports, i, pg);
    NextNotSkipped(ports, i);
  }

  lemma ScanPair(ports: seq<PortInfo>, groups: seq<PortGroup>, symbols: map<string, nat>,
                 i: nat, ws: seq<Widget>, pg: map<string, nat>)
    requires i < |ports| && ports[i].isControl && ports[i].portGroup != "" && IsVuMeterPair(ports, i)
    requires ports[i + 1].symbol in symbols
    requires Scanned(ports, groups, symbols, i, ws, pg)
    ensures i + 2 <= |ports|
    ensures Scanned(ports, groups, symbols, i + 2, ws + [Stereo(PortGroupName(groups, ports[i].portGroup), i, i + 1)], pg)
  {
    assert StartsPair(ports, i);
    LaidOutPair(ports, groups, i, ws);
    GroupsIndexedPair(ports, i, pg);
    PairEndsCleanly(ports, i);
    PairsBoundPair(ports, symbols, i);
  }

  lemma PairsBoundPair(ports: seq<PortInfo>, symbols: map<string, nat>, i: nat)
    requires i + 1 < |ports| && PairsBound(ports, symbols, i) && StartsPair(ports, i)
    requires ports[i + 1].symbol in symbols && !StartsPair(ports, i + 1)
    ensures PairsBound(ports, symbols, i + 2)
  {
  }

  lemma ScanJoin(ports: seq<PortInfo>, groups: seq<PortGroup>, symbols: map<string, nat>,
                 i: nat, ws: seq<Widget>, pg: map<string, nat>)
    requires i < |ports| && ports[i].isControl && ports[i].portGroup != "" && !IsVuMeterPair(ports, i)
    requires ports[i].portGroup in pg
    requires Scanned(ports, groups, symbols, i, ws, pg)
    ensures pg[ports[i].portGroup] < |ws| && ws[pg[ports[i].portGroup]].Group?
    ensures var pos := pg[ports[i].portGroup];
      Scanned(ports, groups, symbols, i + 1, ws[pos := AddChild(ws[pos], Control(i))], pg)
  {
    var g := ports[i].portGroup;
    var pos := pg[g];
    assert GroupsPlaced(ports, i, pg);
    assert pos < |Leaders(ports, i)| && GroupMembers(ports, g, i) != [];
    assert Leaders(ports, i)[pos] == GroupMembers(ports, g, i)[0];
    LaidOutJoinGroup(ports, groups, i, ws, pos);
    GroupsIndexedJoin(ports, i, pg);
    NextNotSkipped(ports, i);
    PairsBoundStep(ports, symbols, i);
  }

  lemma PairsBoundStep(ports: seq<PortInfo>, symbols: map<string, nat>, i: nat)
    requires i < |ports| && PairsBound(ports, symbols, i) && !StartsPair(ports, i)
    ensures PairsBound(ports, symbols, i + 1)
  {
  }

  lemma ScanNewGroup(ports: seq<PortInfo>, groups: seq<PortGroup>, symbols: map<string, nat>,
                     i: nat, ws: seq<Widget>, pg: map<string, nat>)
    requires i < |ports| && ports[i].isControl && ports[i].portGroup != "" && !IsVuMeterPair(ports, i)
    requires ports[i].portGroup !in pg
    requires Scanned(ports, groups, symbols, i, ws, pg)
    ensures var g := ports[i].portGroup;
      Scanned(ports, groups, symbols, i + 1, ws + [Group(g, PortGroupName(groups, g), [Control(i)])], pg[g := |ws|])
  {
    GroupsIndexedNew(ports, i, pg);
    LaidOutNewGroup(ports, groups, i, ws);
    NextNotSkipped(ports, i);
  }
}
