/**
 * The port list of the lvtk test plugin (`SamplePluginInfo`), as a concrete input for the pairing
 * and grouping rules of the control tree.
 */
module SamplePlugin {
  import opened Lv2Ports
  import opened Lv2UserInterface

  const VuOutGroup: string := "https://rerdavies.github.io/lvtk/test_plugin#vuOutGroup"
  const EqGroup: string := "https://rerdavies.github.io/lvtk/test_plugin#eqGroup"

  /** A control port without a group or designation. */
  function Plain(index: nat, symbol: string, name: string, isInput: bool, defaultValue: real): PortInfo
  {
    PortInfo(index, symbol, name, true, isInput, !isInput, defaultValue, "", "")
  }

  const SamplePorts: seq<PortInfo> := [
    Plain(0, "level", "Level", true, 0.0),
    Plain(1, "vu", "VU", false, -60.0),
    Plain(2, "lfoRate", "Rate", true, 3.0),
    Plain(3, "lfoDepth", "Depth", true, 1.0),
    Plain(4, "lfoOut", "LFO", false, 0.0),
    PortInfo(5, "vuOutL", "L", true, false, true, -60.0, VuOutGroup, PortGroupsLeft),
    PortInfo(6, "vuOutR", "R", true, false, true, -60.0, VuOutGroup, PortGroupsRight),
    PortInfo(7, "bass", "Bass", true, true, false, 0.5, EqGroup, ""),
    PortInfo(8, "mid", "Mid", true, true, false, 0.5, EqGroup, ""),
    PortInfo(9, "treble", "Treb", true, true, false, 0.5, EqGroup, ""),
    PortInfo(10, "toneStack", "ToneStack", true, true, false, 0.0, EqGroup, ""),
    PortInfo(11, "in", "In", false, true, false, 0.0, "", ""),
    PortInfo(12, "out", "Out", false, false, true, 0.0, "", "")
  ]

  const SampleGroups: seq<PortGroup> := [
    PortGroup(VuOutGroup, "vuOutGroup", "Out"),
    PortGroup(EqGroup, "eqGroup", "Tone")
  ]

  /** Ports 5 and 6 form a stereo meter pair, and no other port opens one. */
  lemma OnlyPortFivePairs(i: nat)
    requires i < |SamplePorts|
    ensures IsVuMeterPair(SamplePorts, i) <==> i == 5
  {
    if i == 5 {
      assert IsVuMeterPair(SamplePorts, 5);
    } else if i < 5 || i > 6 {
      assert SamplePorts[i].designation != PortGroupsLeft;
    } else {
      assert SamplePorts[6].designation == PortGroupsRight;
      assert PortGroupsLeft[37] != PortGroupsRight[37];
    }
  }

  /** How `AddRenderControls` treats each port: port 5 opens the pair, 6 is skipped, 7 to 10 join a group. */
  lemma Classify(k: nat)
    requires k < |SamplePorts|
    ensures StartsPair(SamplePorts, k) <==> k == 5
    ensures SkippedRight(SamplePorts, k) <==> k == 6
    ensures GroupMember(SamplePorts, k) <==> 7 <= k <= 10
    ensures 7 <= k <= 10 ==> SamplePorts[k].portGroup == EqGroup
    ensures k < 7 ==> SamplePorts[k].portGroup != EqGroup
  {
    OnlyPortFivePairs(k);
    if k > 0 {
      OnlyPortFivePairs(k - 1);
    }
  }

  /** The controls of the tone-stack group, in port order. */
  lemma EqGroupMembers()
    ensures GroupMembers(SamplePorts, EqGroup, 13) == [7, 8, 9, 10]
  {
    NoEqMembersBelowSeven();
    Classify(7);
    assert GroupMembers(SamplePorts, EqGroup, 8) == [7];
    Classify(8);
    assert GroupMembers(SamplePorts, EqGroup, 9) == [7, 8];
    Classify(9);
    assert GroupMembers(SamplePorts, EqGroup, 10) == [7, 8, 9];
    Classify(10);
    assert GroupMembers(SamplePorts, EqGroup, 11) == [7, 8, 9, 10];
    Classify(11);
    assert GroupMembers(SamplePorts, EqGroup, 12) == [7, 8, 9, 10];
    Classify(12);
  }

  lemma NoEqMembersBelowSeven()
    ensures GroupMembers(SamplePorts, EqGroup, 7) == []
  {
    Classify(0);
    assert GroupMembers(SamplePorts, EqGroup, 1) == [];
    Classify(1);
    assert GroupMembers(SamplePorts, EqGroup, 2) == [];
    Classify(2);
    assert GroupMembers(SamplePorts, EqGroup, 3) == [];
    Classify(3);
    assert GroupMembers(SamplePorts, EqGroup, 4) == [];
    Classify(4);
    assert GroupMembers(SamplePorts, EqGroup, 5) == [];
    Classify(5);
    assert GroupMembers(SamplePorts, EqGroup, 6) == [];
    Classify(6);
  }

  /** The ports that add a top-level element. */
  lemma SampleLeaders()
    ensures Leaders(SamplePorts, 13) == [0, 1, 2, 3, 4, 5, 7]
  {
    FirstEightLeaders();
    LaterEqPortsJoin(8);
    assert Leaders(SamplePorts, 9) == [0, 1, 2, 3, 4, 5, 7];
    LaterEqPortsJoin(9);
    assert Leaders(SamplePorts, 10) == [0, 1, 2, 3, 4, 5, 7];
    LaterEqPortsJoin(10);
    assert Leaders(SamplePorts, 11) == [0, 1, 2, 3, 4, 5, 7];
    Classify(11);
    assert Leaders(SamplePorts, 12) == [0, 1, 2, 3, 4, 5, 7];
    Classify(12);
  }

  lemma FirstEightLeaders()
    ensures Leaders(SamplePorts, 8) == [0, 1, 2, 3, 4, 5, 7]
  {
    Classify(0);
    assert Leaders(SamplePorts, 1) == [0];
    Classify(1);
    assert Leaders(SamplePorts, 2) == [0, 1];
    Classify(2);
    assert Leaders(SamplePorts, 3) == [0, 1, 2];
    Classify(3);
    assert Leaders(SamplePorts, 4) == [0, 1, 2, 3];
    Classify(4);
    assert Leaders(SamplePorts, 5) == [0, 1, 2, 3, 4];
    Classify(5);
    assert Leaders(SamplePorts, 6) == [0, 1, 2, 3, 4, 5];
    Classify(6);
    assert Leaders(SamplePorts, 7) == [0, 1, 2, 3, 4, 5];
    NoEqMembersBelowSeven();
    Classify(7);
  }

  /** Ports 8 to 10 find the group of port 7 already there. */
  lemma LaterEqPortsJoin(k: nat)
    requires 8 <= k <= 10
    ensures !LeadsTopLevel(SamplePorts, k)
  {
    Classify(k);
    Classify(7);
    assert 7 in GroupMembers(SamplePorts, EqGroup, k);
  }

  /**
   * The control tree of the sample plugin: five plain controls, one stereo meter labelled by
   * its port group, and one "Tone" group holding the four equaliser controls.
   */
  lemma SampleLayout()
    ensures Layout(SamplePorts, SampleGroups, 13) == [
      Control(0), Control(1), Control(2), Control(3), Control(4),
      Stereo("Out", 5, 6),
      Group(EqGroup, "Tone", [Control(7), Control(8), Control(9), Control(10)])]
  {
    SampleLeaders();
    PlainElements();
    PairElement();
    ToneElement();
    var ws := Layout(SamplePorts, SampleGroups, 13);
    assert |ws| == 7;
    assert ws[5] == Stereo("Out", 5, 6);
    assert ws[6] == Group(EqGroup, "Tone", [Control(7), Control(8), Control(9), Control(10)]);
  }

  /** Ports 0 to 4 carry no group, so each is a control of its own. */
  lemma PlainElements()
    ensures forall k :: 0 <= k < 5 ==> ElementFor(SamplePorts, SampleGroups, k, 13) == Control(k)
  {
  }

  /** Port 5 leads the stereo meter labelled by its group's name. */
  lemma PairElement()
    ensures ElementFor(SamplePorts, SampleGroups, 5, 13) == Stereo("Out", 5, 6)
  {
    Classify(5);
    assert PortGroupName(SampleGroups, VuOutGroup) == "Out";
  }

  /** Port 7 leads the "Tone" group holding ports 7 to 10. */
  lemma ToneElement()
    ensures ElementFor(SamplePorts, SampleGroups, 7, 13)
      == Group(EqGroup, "Tone", [Control(7), Control(8), Control(9), Control(10)])
  {
    EqGroupMembers();
    Classify(7);
    assert PortGroupName(SampleGroups, EqGroup) == "Tone" by {
      assert VuOutGroup[49] != EqGroup[49];
    }
    assert Controls([7, 8, 9, 10]) == [Control(7), Control(8), Control(9), Control(10)];
  }

  /** Every port's index is its position, so the constructor accepts the list. */
  lemma SampleIndicesInRange()
    ensures ControlIndicesInRange(SamplePorts)
  {
    forall k | 0 <= k < |SamplePorts|
      ensures SamplePorts[k].index == k
    {
    }
  }

  /**
   * The right port of the sample's only pair has a cell, so building its control tree does not
   * fail with "Key not found.".
   */
  lemma SampleRendersWithoutFailure()
    ensures ControlIndicesInRange(SamplePorts)
    ensures !MissingPairSymbol(SamplePorts, BindFrom(SamplePorts, |SamplePorts|).symbols)
  {
    SampleIndicesInRange();
    EveryControlSymbolBound(SamplePorts, 6);
    forall k | 0 <= k < |SamplePorts| && StartsPair(SamplePorts, k)
      ensures SamplePorts[k + 1].symbol in BindFrom(SamplePorts, |SamplePorts|).symbols
    {
      Classify(k);
    }
  }
}
