# lvtk UI core, modelled in Dafny

This project models three sequential parts of lvtk, the LV2 plugin UI toolkit, and proves what
they promise.

- **`Lv2UI`** (`lv2_ports.dfy`, `lv2_ui.dfy`). This is the object behind an LV2 plugin's user interface.
  - **Window defaults.** It fills the window-creation parameters with defaults.
  - **Binding table.** It builds one binding cell per control port. A cell is reachable by port index (`bindingSites`) and by port symbol (`bindingSiteMap`). The object also keeps `currentHostPortValues`, the values the host is known to hold.
  - **Host to UI.** `ui_port_event` passes values from the host to the cells.
  - **UI to host.** `OnPortValueChanged` writes values back to the host. It suppresses echoes: a value the host already holds is never written again (for ordinary values; NaN is not modelled, see "Left out").
  - **Lookup.** It looks up a cell by symbol, and an unknown symbol throws "Key not found.".
  - **Control tree.** `AddRenderControls` builds the tree of controls. Ungrouped controls go straight into the container. There is one group element per port-group URI. A stereo meter pair becomes one element, and its right port is skipped.
- **`LvtkDrawingContext` and `LvtkPattern`** (`drawing_context.dfy`).
  - The drawing context's save/restore counter, including the "Unbalanced restore." error.
  - `check_status` and `log_status`.
  - `LvtkPattern`'s ownership of a reference-counted cairo pattern handle.
- **`LvtkDialElement`** (`dial_element.dfy`).
  - The fixed child structure: dial, then drop shadow, then image.
  - The mapping from a normalised value to an image rotation of -135° to +135°.
  - Mount-time choice of tint and drop shadow.
  - Opacity changes.

`sample_plugin.dfy` uses the port list of the lvtk test plugin as a concrete input. It shows that only ports 5 and 6 form a pair, and it gives the complete control tree of that plugin.

Modelling choices:

- **Stateful parts are classes.** Methods update fields, and each method is proved against a pure specification function:
  - `Lv2UI.SetCreateWindowDefaults` against `WithWindowDefaults`;
  - the constructor's loop (`BindPorts`) against `BindFrom`;
  - `OnPortValueChanged` against `HostAfterChange`;
  - the loop of `AddRenderControls` against `Layout`.
- **Cell identity.** A binding cell is named by the position, in the port list, of the port that created it. Two table entries that share a cell hold the same position.
- **Numbers.** `double` and `float` are both `real`. The conversion to `float` is `Narrow`, which rounds down to a fixed grid. It is not IEEE rounding, and NaN and infinity are not represented. The property the code relies on is that converting a float again gives it back (`NarrowIsFloat`).
- **Cairo is opaque.**
  - A status is `StatusSuccess` or an error code.
  - A pattern is a `Handle` (`None` is the null pointer).
  - `CairoPatterns` keeps every handle's reference count. Cairo itself chooses the handles of new patterns, so they are parameters here.
- **Exceptions.** A thrown exception is a `Failure(message)` (or a `Fail`/`Thrown` outcome).

## Model

| member | source | states |
|---|---|---|
| Lv2UserInterface.WithWindowDefaults | src/lvtk_ui/Lv2UI.cpp:50-101 | positioning becomes ChildWindow; a zero size, minSize or maxSize becomes 800×600, 320×200 or 4096×4096, and a non-zero one is kept; an empty settings key or title becomes the plugin name; an empty X11 class or GTK id becomes "com.twoplay.lvtk-plugin"; an empty X11 window name becomes the label, or the name if the label is empty; non-empty fields are kept; with a non-empty name, every text field ends non-empty |
| Lv2UserInterface.WindowSizeDefault | src/lvtk_ui/Lv2UI.cpp:58-61 | the defaults keep a non-zero window size and replace a zero one by 800×600 |
| Lv2UserInterface.WindowDefaultsIdempotent | src/lvtk_ui/Lv2UI.cpp:50-101 | applying the defaults twice gives the same parameters as applying them once |
| Lv2UserInterface.Lv2UI.SetCreateWindowDefaults | src/lvtk_ui/Lv2UI.cpp:50-101 | the field-by-field updates leave exactly `WithWindowDefaults` of the old parameters |
| Lv2UserInterface.Lv2UI.constructor | src/lvtk_ui/Lv2UI.cpp:109-148 | the parameters are the defaulted ones; the binding table is `BindFrom` of all ports and satisfies the table invariant; no controller and no writes yet |
| Lv2UserInterface.Lv2UI.WithDefaultSize | src/lvtk_ui/Lv2UI.cpp:102-107 | delegates to the constructor with default parameters, then sets the size and applies the defaults again: the size is the given one, or 800×600 when it is zero |
| Lv2UserInterface.NewCell | src/lvtk_ui/Lv2UI.cpp:135-146 | a new cell holds the port's default value, and has a write-back observer, reporting the port's index, exactly when the port is an input |
| Lv2UserInterface.LastIndexOwner | src/lvtk_ui/Lv2UI.cpp:130-136 | the cell kept at a port index is that of the LAST control port with that index: a later duplicate overwrites the earlier one |
| Lv2UserInterface.LastSymbolOwner | src/lvtk_ui/Lv2UI.cpp:138 | the cell kept for a symbol is that of the last control port with that symbol |
| Lv2UserInterface.BindStep | src/lvtk_ui/Lv2UI.cpp:127-147 | one pass of the constructor's loop: a non-control port changes nothing; a control port gets a new cell, takes over the site at its index and the entry for its symbol, sets the host value at its index to its default as a float, leaves every other site, host value and symbol as it was, and is reported as a duplicate exactly when its index's site was already taken |
| Lv2UserInterface.BindFrom | src/lvtk_ui/Lv2UI.cpp:121-148 | the reference definition of the tables after the ports below n (`BindStep` applied port by port); the site and host-value sequences always have one entry per port |
| Lv2UserInterface.BindFromTables | src/lvtk_ui/Lv2UI.cpp:121-148 | the tables after the ports below n (`BindFrom`): cells exist exactly for the control ports below n and hold `NewCell`; the site at each index and the entry for each symbol name the last owner; the host value is that owner's default as a float, or 0; a port is reported as a duplicate exactly when an earlier control port had its index |
| Lv2UserInterface.BindPorts | src/lvtk_ui/Lv2UI.cpp:125-148 | the constructor's loop builds exactly `BindFrom` of all ports |
| Lv2UserInterface.EveryControlSymbolBound | src/lvtk_ui/Lv2UI.cpp:138 | every control port's symbol has an entry in `bindingSiteMap` |
| Lv2UserInterface.OwnCellAtIndex | src/lvtk_ui/Lv2UI.cpp:130-146 | a control port whose index no later port reuses owns the cell at its index; that cell holds its default and has an observer iff the port is an input, and the host value there is the default as a float |
| Lv2UserInterface.BoundTablesValid | src/lvtk_ui/Lv2UI.cpp:121-148 | the constructor's tables satisfy the invariant the UI relies on: every site and symbol leads to a cell, the observer of the cell at index i reports i, and every control symbol is bound |
| Lv2UserInterface.Narrow | src/lvtk_ui/Lv2UI.cpp:660 | the `(float)value` conversion: the float is at most the value and less than one grid step (2^-24) below it |
| Lv2UserInterface.NarrowIsFloat | src/lvtk_ui/Lv2UI.cpp:660 | converting a value to float twice is the same as once |
| Lv2UserInterface.HostAfterChange | src/lvtk_ui/Lv2UI.cpp:658-674 | the host is written to exactly when a controller is attached and the float value differs from the last host value; the write is (index, float value), and that value becomes the host value; otherwise nothing changes |
| Lv2UserInterface.EchoSuppressed | src/lvtk_ui/Lv2UI.cpp:658-674 | reporting a value the host already holds changes nothing and writes nothing |
| Lv2UserInterface.Lv2UI.AttachController | src/lvtk_ui/Lv2UI.cpp:189-190 | `instantiate` stores the controller the host passes; write-back is enabled exactly when that controller is not null |
| Lv2UserInterface.Lv2UI.OnPortValueChanged | src/lvtk_ui/Lv2UI.cpp:658-674 | the new host values and write log are exactly `HostAfterChange` of the old ones; the table invariant is kept |
| Lv2UserInterface.Lv2UI.SetCell | src/lvtk_ui/Lv2UI.cpp:142-146 | setting a cell stores the value; only a changed value on a cell with an observer reaches `OnPortValueChanged` for the observer's port index |
| Lv2UserInterface.Lv2UI.UiPortEvent | src/lvtk_ui/Lv2UI.cpp:276-295 | for format 0 and an index below the port count, the host value at that index becomes the value and the cell there, if any, is set; otherwise nothing changes; in every case nothing is written to the host (values are reals, so a host NaN is not modelled) |
| Lv2UserInterface.Lv2UI.GetControlProperty | src/lvtk_ui/Lv2UI.cpp:491-508 | fails with "Key not found." exactly when the symbol is unknown; otherwise yields the symbol's own binding site `bindingSiteMap[key]`, which is an existing cell |
| Lv2UserInterface.Lv2UI.GetControlValue | src/lvtk_ui/Lv2UI.cpp:515-518 | the value of the symbol's cell, or the lookup's failure |
| Lv2UserInterface.Lv2UI.SetControlValue | src/lvtk_ui/Lv2UI.cpp:510-514 | fails with "Key not found." exactly when the symbol is unknown, and then changes nothing; otherwise only the symbol's cell takes the value, every other cell is unchanged, and the host is updated exactly as `SetCell` does (a write only for a changed value on an input port's cell, per `HostAfterChange`); a following `GetControlValue` of the symbol returns the value set |
| Lv2Ports.IsVuMeterPair | src/lvtk_ui/Lv2UI.cpp:538-569 | the pair test as written, check by check: a recognised pair has a following port, the left port is designated pg:left, the right one pg:right, and both have the same port group |
| Lv2Ports.VuMeterPairExactly | src/lvtk_ui/Lv2UI.cpp:538-569 | port i opens a pair iff it is a control output designated pg:left, port i+1 exists and is designated pg:right, and both have the same port group; the right port's kind is not checked |
| Lv2Ports.RightOfPairIsNotLeft | src/lvtk_ui/Lv2UI.cpp:538-569 | the right port of a pair is designated pg:right and never opens a pair itself |
| Lv2Ports.GroupMembers | src/lvtk_ui/Lv2UI.cpp:606-632 | the ports below n that become children of group g: exactly the grouped control ports of g that are neither half of a pair, in increasing port order |
| Lv2Ports.Leaders | src/lvtk_ui/Lv2UI.cpp:574-642 | the ports below n that add a top-level element: exactly the ungrouped controls, the left ports of pairs, and the first member of each group, in increasing order |
| Lv2Ports.PortGroupName | src/lvtk_ui/Lv2UI.cpp:586-595 | the label is the name of the first port-group entry with the URI, or empty when none matches |
| Lv2UserInterface.GroupLabel | src/lvtk_ui/Lv2UI.cpp:619-626 | the label search loop, with its early exit, gives `PortGroupName` |
| Lv2Ports.ElementFor | src/lvtk_ui/Lv2UI.cpp:578-631 | the element a leading port adds: a control exactly for an ungrouped port; a stereo element for the port and the one after it, labelled by its group; otherwise the group element for its URI, labelled by the group |
| Lv2Ports.Layout | src/lvtk_ui/Lv2UI.cpp:571-643 | the reference definition of the appended elements: one `ElementFor` per leading port, in port order, so there are exactly as many elements as leaders |
| Lv2Ports.LayoutShowsOnlyControls | src/lvtk_ui/Lv2UI.cpp:574-642 | every element comes from control ports: a top-level control is an ungrouped control port, a stereo element names a pair's left port and the port after it, and every group child is a member of that group's URI |
| Lv2Ports.LayoutGroupsUnique | src/lvtk_ui/Lv2UI.cpp:609-618 | no two group elements have the same URI |
| Lv2Ports.LayoutPlacesEveryControl | src/lvtk_ui/Lv2UI.cpp:578-640 | every ungrouped control is a top-level control; every pair is a top-level stereo element with its group's label; every other grouped control is a child of the one group element for its URI, which carries the group's label |
| Lv2Ports.LayoutKeepsPortOrder | src/lvtk_ui/Lv2UI.cpp:574-642 | top-level elements appear in the order of the ports that create them |
| Lv2Ports.ScanSkip | src/lvtk_ui/Lv2UI.cpp:578 | a non-control port leaves the tree and the group map unchanged |
| Lv2Ports.ScanUngrouped | src/lvtk_ui/Lv2UI.cpp:634-640 | an ungrouped control appends one control element |
| Lv2Ports.ScanPair | src/lvtk_ui/Lv2UI.cpp:583-605 | a pair appends one stereo element labelled by its group, and the scan resumes after the right port |
| Lv2Ports.ScanMissing | src/lvtk_ui/Lv2UI.cpp:597-601 | a pair whose right port has no cell is a case of `MissingPairSymbol` |
| Lv2Ports.ScanJoin | src/lvtk_ui/Lv2UI.cpp:609-613 | a member of a group already seen is appended to that group element's children, in place |
| Lv2Ports.ScanNewGroup | src/lvtk_ui/Lv2UI.cpp:614-631 | the first member of a group appends a new group element, labelled by the group, holding that port, and records its position |
| Lv2UserInterface.ScanPort | src/lvtk_ui/Lv2UI.cpp:576-641 | one pass of the loop keeps the loop invariant: the elements so far are the layout of the ports scanned, and the group map gives each seen group's element |
| Lv2UserInterface.Lv2UI.AddRenderControls | src/lvtk_ui/Lv2UI.cpp:571-643 | fails with "Key not found." exactly when the right port of some pair has no cell; otherwise yields exactly `Layout` of all ports |
| LvtkDrawingContext.DrawingContext.constructor | src/lvtk/include/lvtk/LvtkDrawingContext.hpp:345-348 | a new context has save count 0 |
| LvtkDrawingContext.DrawingContext.Save | src/lvtk/include/lvtk/LvtkDrawingContext.hpp:385-389 | the count goes up by one and the new count is returned, matching one save step of `Run` |
| LvtkDrawingContext.DrawingContext.Restore | src/lvtk/include/lvtk/LvtkDrawingContext.hpp:390-399 | the count goes down by one; "Unbalanced restore." is thrown exactly when the old count was at most 0, with the count then already below 0; otherwise the old count is returned; matches one restore step of `Run` |
| LvtkDrawingContext.Run | src/lvtk/include/lvtk/LvtkDrawingContext.hpp:385-399 | a sequence of saves and restores that does not throw ends at the start count plus saves minus restores; a throw is always "Unbalanced restore." |
| LvtkDrawingContext.RunFailsExactlyWhenCounterDips | src/lvtk/include/lvtk/LvtkDrawingContext.hpp:390-399 | a sequence throws iff some restore takes the count below zero |
| LvtkDrawingContext.PrefixBalancedRunSucceeds | src/lvtk/include/lvtk/LvtkDrawingContext.hpp:385-399 | from a non-negative count, a sequence in which no prefix has more restores than saves never throws |
| LvtkDrawingContext.SavesThenRestoresBalance | src/lvtk/include/lvtk/LvtkDrawingContext.hpp:385-399 | n saves followed by n restores never throw and return the count to its start |
| LvtkDrawingContext.ExtraRestoreFails | src/lvtk/include/lvtk/LvtkDrawingContext.hpp:390-399 | n saves followed by n+1 restores from a new context always throw |
| LvtkDrawingContext.DrawingContext.CheckStatus | src/lvtk/include/lvtk/LvtkDrawingContext.hpp:598-604 | throws exactly when the status is not success, carrying that status |
| LvtkDrawingContext.DrawingContext.LogStatus | src/lvtk/include/lvtk/LvtkDrawingContext.hpp:614-620 | logs the status exactly when it is not success; on success nothing changes |
| LvtkDrawingContext.Pattern.IsEmpty | src/lvtk/include/lvtk/LvtkDrawingContext.hpp:292 | true exactly when no cairo pattern is held (the null pointer) |
| LvtkDrawingContext.Pattern.ReferenceCount | src/lvtk/include/lvtk/LvtkDrawingContext.hpp:293 | 0 exactly for an empty pattern; otherwise cairo's count for the handle |
| LvtkDrawingContext.Pattern.Empty | src/lvtk/include/lvtk/LvtkDrawingContext.hpp:239 | a default pattern is empty |
| LvtkDrawingContext.Pattern.Wrap | src/lvtk/include/lvtk/LvtkDrawingContext.hpp:240 | wrapping a raw handle holds it without a new reference; a live handle gives a valid pattern |
| LvtkDrawingContext.Pattern.Create | src/lvtk/include/lvtk/LvtkDrawingContext.hpp:243-245 | the colour and surface constructors hold a new pattern with one reference |
| LvtkDrawingContext.Pattern.Move | src/lvtk/include/lvtk/LvtkDrawingContext.hpp:241 | move construction takes the other's handle and leaves the other empty; both are valid afterwards when the other was |
| LvtkDrawingContext.Pattern.Copy | src/lvtk/include/lvtk/LvtkDrawingContext.hpp:242 | copy construction shares the handle and adds one reference, or stays empty |
| LvtkDrawingContext.Pattern.Release | src/lvtk/include/lvtk/LvtkDrawingContext.hpp:296-301 | release always leaves the pattern empty and gives back its reference, if any |
| LvtkDrawingContext.Pattern.SetRaw | src/lvtk/include/lvtk/LvtkDrawingContext.hpp:302 | as written: references the raw handle but leaves the field unchanged; validity is kept |
| LvtkDrawingContext.Pattern.SetFrom | src/lvtk/include/lvtk/LvtkDrawingContext.hpp:303 | holds the other's handle with a reference of its own, and is valid |
| LvtkDrawingContext.Pattern.CopyAssign | src/lvtk/include/lvtk/LvtkDrawingContext.hpp:248-253 | as written: between distinct patterns, the old handle is given back and the other's is shared; assigning a pattern to itself empties it; the pattern is valid afterwards in both cases |
| LvtkDrawingContext.Pattern.CopyAssignChecked | src/lvtk/include/lvtk/LvtkDrawingContext.hpp:248-253 | with a self-assignment test, the pattern always ends holding the other's handle and self-assignment changes no count |
| LvtkDrawingContext.Pattern.AssignRaw | src/lvtk/include/lvtk/LvtkDrawingContext.hpp:254-259 | as written: the old handle is given back, the raw handle gains a reference, and the pattern stays empty |
| LvtkDrawingContext.Pattern.AssignRawIntended | src/lvtk/include/lvtk/LvtkDrawingContext.hpp:254-259 | as intended: the pattern holds the raw handle with a reference of its own |
| LvtkDrawingContext.Pattern.MoveAssign | src/lvtk/include/lvtk/LvtkDrawingContext.hpp:260-264 | move assignment swaps the two handles, and with them which of the two is valid |
| LvtkDrawingContext.RawAssignmentLosesHandle | src/lvtk/include/lvtk/LvtkDrawingContext.hpp:254-259 | assigning a live raw handle leaves the pattern empty, and the handle has a second reference that no one owns |
| LvtkDrawingContext.RawAssignmentKeepsHandle | src/lvtk/include/lvtk/LvtkDrawingContext.hpp:254-259 | with the intended assignment, the same call holds the handle with two references |
| LvtkDrawingContext.SelfAssignmentEmpties | src/lvtk/include/lvtk/LvtkDrawingContext.hpp:248-253 | self-assigning a pattern holding the only reference empties it and destroys the pattern |
| LvtkDrawingContext.SelfAssignmentKeeps | src/lvtk/include/lvtk/LvtkDrawingContext.hpp:248-253 | with the self-assignment test, the same call keeps the handle and its count |
| LvtkDialElement.Rotation | src/lvtk/LvtkDialElement.cpp:58 | values between 0 and 1 give angles between -135 and +135 degrees |
| LvtkDialElement.RotationEndpoints | src/lvtk/LvtkDialElement.cpp:58 | values 0, 0.5 and 1 give -135, 0 and +135 degrees |
| LvtkDialElement.RotationStrictlyIncreasing | src/lvtk/LvtkDialElement.cpp:58 | one value is below another iff its angle is below the other's |
| LvtkDialElement.ValueShown | src/lvtk/LvtkDialElement.cpp:58 | angles between -135 and +135 degrees show values between 0 and 1 |
| LvtkDialElement.RotationRoundTrip | src/lvtk/LvtkDialElement.cpp:58 | rotation and `ValueShown` are inverse in both directions |
| LvtkDialElement.MountedDropShadow | src/lvtk/LvtkDialElement.cpp:49-52 | the dial's own drop shadow when it has one, otherwise the theme's `dialDropShadow` |
| LvtkDialElement.DialElement.constructor | src/lvtk/LvtkDialElement.cpp:25-40 | the dial's only child is a new drop-shadow element whose only child is a new image; the image stretches on both axes, shows the dial's source and is rotated for the current value |
| LvtkDialElement.DialElement.OnMount | src/lvtk/LvtkDialElement.cpp:41-54 | takes the theme's dial style; tints the image with the style colour only when `TintImage()` holds, otherwise the tint is unchanged; gives the drop-shadow element `MountedDropShadow` |
| LvtkDialElement.DialElement.OnValueChanged | src/lvtk/LvtkDialElement.cpp:55-60 | the image rotation becomes `Rotation` of the dial's current value, whatever the argument |
| LvtkDialElement.DialElement.OnDialOpacityChanged | src/lvtk/LvtkDialElement.cpp:62-66 | the drop-shadow element takes the opacity and is invalidated once; nothing else changes |
| LvtkDialElement.DropShadowElement.AddChild | src/lvtk/LvtkDialElement.cpp:29-31 | a child is appended after the existing children |
| SamplePlugin.OnlyPortFivePairs | src/test/SamplePluginInfo.hpp:82-111 | in the test plugin, port i opens a stereo pair iff i is 5 |
| SamplePlugin.Classify | src/test/SamplePluginInfo.hpp:26-170 | port 5 opens the pair, port 6 is skipped, ports 7 to 10 are the group members |
| SamplePlugin.EqGroupMembers | src/test/SamplePluginInfo.hpp:112-153 | the "Tone" group's children are ports 7, 8, 9 and 10 in order |
| SamplePlugin.SampleLeaders | src/test/SamplePluginInfo.hpp:26-170 | the ports that add top-level elements are 0 to 5 and 7 |
| SamplePlugin.SampleLayout | src/test/SamplePluginInfo.hpp:26-171 | the test plugin's control tree is five controls, a stereo element "Out" for ports 5 and 6, and a "Tone" group with ports 7 to 10 |
| SamplePlugin.SampleRendersWithoutFailure | src/test/SamplePluginInfo.hpp:82-111 | the right port of the pair has a cell, so building the tree does not fail |

## Left out

- `instantiate` is modelled only in the part that stores the controller (`AttachController`), reduced to whether that controller is null. Option scanning, feature negotiation, URID mapping, theme selection and window creation are host and platform glue.
- `ui_idle`, `ui_show`, `ui_hide`, `ui_delete` and `ui_resize` are left out: they are the message pump and the window lifecycle.
- The log functions are left out: they are formatted output to the host log or to stdout. A duplicate port index is kept as a list of reported ports (`duplicateReports`), not as printed text.
- The settings file (`LvtkSettingsFile` load and its root object) is left out: it is file I/O.
- `Render`, `RenderControl`, `RenderStereoControl` and the port-view factory are left out: they are foreign widget construction. The tree holds `Control`, `Stereo` and `Group` nodes in place of the views they build.
- Lv2Ports.PortGroupName returns the empty string for a URI that no port-group entry names. The group element then keeps its default text, and `LvtkGroupElement`'s default text is not part of this model, so it is taken to be empty.
- `AddRenderControls` appends to the container as it goes. When it throws part-way, the elements already appended stay in the container. The model returns only the failure in that case.
- Lv2UserInterface.Lv2UI.constructor requires that every control port's index is below the port count. The source indexes `bindingSites` with the port's index without a check, so a larger index is undefined behaviour there.
- Lv2UserInterface.Narrow is not IEEE single-precision rounding. It is rounding down to a grid of 2^-24. Only the fact that converting a float again gives it back is relied on.
- Lv2UserInterface.Narrow, Lv2UserInterface.HostAfterChange, Lv2UserInterface.EchoSuppressed and Lv2UserInterface.Lv2UI.UiPortEvent: NaN and infinity are not modelled, because values are `real`. In the source, `ui_port_event` stores a NaN sent by the host (src/lvtk_ui/Lv2UI.cpp:284-291). The echo test `floatValue != currentHostPortValues[portIndex]` (src/lvtk_ui/Lv2UI.cpp:663) is always true for NaN, so the source writes a NaN back to the host on every change. A `double` beyond the `float` range becomes infinity under the cast at src/lvtk_ui/Lv2UI.cpp:660. The echo-suppression promise holds only for finite, non-NaN values.
- Lv2UserInterface.BindStep and Lv2UserInterface.BindFromTables store a port's default in the host-value table converted with `Narrow`. The declaration of `currentHostPortValues` (in `Lv2UI.hpp`) is not part of this model. The model takes it to be a vector of `float`, so the `double` default assigned at src/lvtk_ui/Lv2UI.cpp:140 is converted on storage.
- `LvtkBindingProperty` itself is not shown. The model takes its `set` to store the value and notify the observer only when the value changes. Observer handles and other observers are not modelled.
- `Theme()`, style classes and the base `OnMount` are represented only by the `Theme` value the dial reads. The dial's `SourceProperty` binding is modelled only as the copy made at construction. Later updates through the binding are not modelled. `SourceProperty.Bind(image->SourceProperty)` (src/lvtk/LvtkDialElement.cpp:37) is taken to make the image follow the dial. `LvtkBindingProperty::Bind` is not part of this model, so that direction is an assumption.
- The default values of the dial's properties (`Value`, `TintImage`, `DropShadow`, colour) are not shown, so they are constructor parameters.
- Cairo pass-throughs are left out: paths, fills, transforms, `LvtkMatrix`, surfaces, gradients, fonts and device-space conversions. `cairo_save`/`cairo_restore` are modelled only through the counter. The cairo context's own reference count, and copying or assigning contexts, are left out.
- LvtkDrawingContext.DrawingContext.CheckStatus and LvtkDrawingContext.DrawingContext.LogStatus: `throw_status_error` and `log_status_error` are only declared (src/lvtk/include/lvtk/LvtkDrawingContext.hpp:578-579), and their bodies are not part of this model. That the exception carries the status, and that the status is logged, is taken from their names. What is modelled is when they are called.
- LvtkDrawingContext.CairoPatterns.Create takes the new handle as a parameter, because cairo chooses it.
- Ownership across several `LvtkPattern` objects is not tracked globally. Each method requires what it needs: the handles it releases or references are still alive. Copy and raw assignment between two patterns that hold the same handle require a second reference.
- The vertical stack element and the indefinite progress element are not part of this model. Only their declarations exist, so their layout and animation logic are not visible.

## Findings

| source | as written | input that shows it | evidently intended | confidence | as-written member | corrected member |
|---|---|---|---|---|---|---|
| src/lvtk/include/lvtk/LvtkDrawingContext.hpp:254-259, 302 | `set(cairo_pattern_t *pattern)` assigns the referenced handle to its own parameter, which shadows the field, so `operator=(cairo_pattern_t *)` releases the old handle and leaves the pattern empty while still taking a reference | an empty pattern assigned a live handle with one reference: the pattern stays empty and the handle's count becomes 2 with only the caller owning a reference | the pattern holds the handle with a reference of its own | high (not executed) | LvtkDrawingContext.Pattern.AssignRaw, LvtkDrawingContext.RawAssignmentLosesHandle | LvtkDrawingContext.Pattern.AssignRawIntended, LvtkDrawingContext.RawAssignmentKeepsHandle |
| src/lvtk/include/lvtk/LvtkDrawingContext.hpp:248-253 | `operator=(const LvtkPattern &)` releases before copying and has no self-assignment test, so `p = p` empties `p` | a pattern holding the only reference to a handle, assigned to itself: it ends empty and the handle's count drops to 0 | self-assignment leaves the pattern unchanged | high (not executed) | LvtkDrawingContext.Pattern.CopyAssign, LvtkDrawingContext.SelfAssignmentEmpties | LvtkDrawingContext.Pattern.CopyAssignChecked, LvtkDrawingContext.SelfAssignmentKeeps |
