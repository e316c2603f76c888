/**
 * `LvtkDrawingContext`'s save/restore counter and status checks, and `LvtkPattern`'s ownership
 * of a cairo pattern handle.  Cairo itself stays opaque: a status is an abstract value, and a
 * pattern is a handle whose reference count `CairoPatterns` keeps.
 */
module LvtkDrawingContext {
  import opened Wrappers

  // ---------------------------------------------------------------------------------------------
  // Save/restore balance
  // ---------------------------------------------------------------------------------------------

  const UnbalancedRestore: string := "Unbalanced restore."

  /** A call that moves the counter of a drawing context. */
  datatype Call = SaveCall | RestoreCall

  /** Number of saves minus number of restores in `calls`. */
  function Balance(calls: seq<Call>): int
  {
    if calls == [] then 0
    else (if calls[0] == SaveCall then 1 else -1) + Balance(calls[1..])
  }

  /**
   * The counter after running `calls` on a context whose counter is `count`, or the exception
   * of the first restore that takes the counter below zero.
   */
  function Run(count: int, calls: seq<Call>): (r: Result<int>)
    ensures r.Success? ==> r.value == count + Balance(calls)
    ensures r.Failure? ==> r.message == UnbalancedRestore
    decreases |calls|
  {
    if calls == [] then Success(count)
    else if calls[0] == SaveCall then Run(count + 1, calls[1..])
    else if count - 1 < 0 then Failure(UnbalancedRestore)
    else Run(count - 1, calls[1..])
  }

  /** `n` copies of `c`. */
  function Repeat(c: Call, n: nat): (cs: seq<Call>)
    ensures |cs| == n && forall k :: 0 <= k < n ==> cs[k] == c
  {
    if n == 0 then [] else [c] + Repeat(c, n - 1)
  }

  lemma {:induction false} BalanceAppend(a: seq<Call>, b: seq<Call>)
    ensures Balance(a + b) == Balance(a) + Balance(b)
    decreases |a|
  {
    if a == [] {
      assert a + b == b;
    } else {
      assert (a + b)[1..] == a[1..] + b;
      BalanceAppend(a[1..], b);
    }
  }

  /** A run fails exactly when some restore takes the counter below zero. */
  lemma {:induction false} RunFailsExactlyWhenCounterDips(count: int, calls: seq<Call>)
    ensures Run(count, calls).Failure? <==>
      exists k :: 0 < k <= |calls| && calls[k - 1] == RestoreCall && count + Balance(calls[..k]) < 0
    decreases |calls|
  {
    if calls != [] {
      var step := if calls[0] == SaveCall then 1 else -1;
      var rest := calls[1..];
      assert Balance(calls[..1]) == step by {
        assert calls[..1][1..] == [];
      }
      forall k | 1 < k <= |calls|
        ensures calls[k - 1] == rest[k - 2] && Balance(calls[..k]) == step + Balance(rest[..k - 1])
      {
        assert calls[..k][1..] == rest[..k - 1];
      }
      if calls[0] == RestoreCall && count - 1 < 0 {
        assert calls[0] == RestoreCall && count + Balance(calls[..1]) < 0;
      } else {
        RunFailsExactlyWhenCounterDips(count + step, rest);
        if Run(count, calls).Failure? {
          var j :| 0 < j <= |rest| && rest[j - 1] == RestoreCall && count + step + Balance(rest[..j]) < 0;
          assert calls[j] == RestoreCall && count + Balance(calls[..j + 1]) < 0;
        }
        if exists k :: 0 < k <= |calls| && calls[k - 1] == RestoreCall && count + Balance(calls[..k]) < 0 {
          var k :| 0 < k <= |calls| && calls[k - 1] == RestoreCall && count + Balance(calls[..k]) < 0;
          assert k != 1;
          assert rest[k - 2] == RestoreCall && count + step + Balance(rest[..k - 1]) < 0;
        }
      }
    }
  }

  /** A sequence that never has more restores than saves at any point never fails. */
  lemma PrefixBalancedRunSucceeds(count: int, calls: seq<Call>)
    requires count >= 0
    requires forall k :: 0 <= k <= |calls| ==> Balance(calls[..k]) >= 0
    ensures Run(count, calls) == Success(count + Balance(calls))
  {
    RunFailsExactlyWhenCounterDips(count, calls);
    assert calls[..|calls|] == calls;
  }

  lemma {:induction false} RunSaves(count: int, n: nat, rest: seq<Call>)
    ensures Run(count, Repeat(SaveCall, n) + rest) == Run(count + n, rest)
    decreases n
  {
    if n == 0 {
      assert Repeat(SaveCall, n) + rest == rest;
    } else {
      var calls := Repeat(SaveCall, n) + rest;
      assert calls[0] == SaveCall;
      assert calls[1..] == Repeat(SaveCall, n - 1) + rest;
      RunSaves(count + 1, n - 1, rest);
    }
  }

  lemma {:induction false} RunRestores(count: int, n: nat)
    requires count >= n
    ensures Run(count, Repeat(RestoreCall, n)) == Success(count - n)
    decreases n
  {
    if n > 0 {
      var calls := Repeat(RestoreCall, n);
      assert calls[1..] == Repeat(RestoreCall, n - 1);
      RunRestores(count - 1, n - 1);
    }
  }

  /** `n` saves followed by `n` restores never throw and bring the counter back where it was. */
  lemma SavesThenRestoresBalance(count: int, n: nat)
    requires count >= 0
    ensures Run(count, Repeat(SaveCall, n) + Repeat(RestoreCall, n)) == Success(count)
  {
    RunSaves(count, n, Repeat(RestoreCall, n));
    RunRestores(count + n, n);
  }

  /** One more restore than saves always throws. */
  lemma ExtraRestoreFails(n: nat)
    ensures Run(0, Repeat(SaveCall, n) + Repeat(RestoreCall, n + 1)).Failure?
  {
    var restores := Repeat(RestoreCall, n + 1);
    RunSaves(0, n, restores);
    assert restores == Repeat(RestoreCall, n) + [RestoreCall];
    RunFailsExactlyWhenCounterDips(n, restores);
    assert restores[..n + 1] == restores;
    BalanceAppend(Repeat(RestoreCall, n), [RestoreCall]);
    RestoresBalance(n);
  }

  lemma {:induction false} RestoresBalance(n: nat)
    ensures Balance(Repeat(RestoreCall, n)) == -(n as int)
    decreases n
  {
    if n > 0 {
      assert Repeat(RestoreCall, n)[1..] == Repeat(RestoreCall, n - 1);
      RestoresBalance(n - 1);
    }
  }

  // ---------------------------------------------------------------------------------------------
  // Drawing context
  // ---------------------------------------------------------------------------------------------

  /** `cairo_status_t`: success, or one of cairo's error codes. */
  datatype CairoStatus = StatusSuccess | StatusError(code: nat)

  /** What `check_status` does: nothing, or throw the exception for the failed status. */
  datatype StatusCheck = Passed | Thrown(status: CairoStatus)

  /** `LvtkDrawingContext`: the save counter, the status of the wrapped cairo context and the log. */
  class DrawingContext {
    var saveCount: int
    /** `cairo_status(context)`, set by the cairo calls that are not part of this model. */
    var status: CairoStatus
    /** The statuses `log_status_error` has reported, oldest first. */
    var log: seq<CairoStatus>

    /** `LvtkDrawingContext(cairo_t *)`: the counter starts at zero. */
    constructor (status: CairoStatus)
      ensures saveCount == 0 && this.status == status && log == []
    {
      saveCount := 0;
      this.status := status;
      log := [];
    }

    /** `save()`: one level deeper; returns the new depth. */
    method Save() returns (r: int)
      modifies this`saveCount
      ensures saveCount == old(saveCount) + 1 && r == saveCount
      ensures Run(old(saveCount), [SaveCall]) == Success(saveCount)
    {
      saveCount := saveCount + 1;
      r := saveCount;
    }

    /**
     * `restore()`: one level up; returns the depth before the call.  The counter is decremented
     * before the check, so it is -1 when "Unbalanced restore." is thrown from depth 0.
     */
    method Restore() returns (r: Result<int>)
      modifies this`saveCount
      ensures saveCount == old(saveCount) - 1
      ensures r.Failure? <==> old(saveCount) <= 0
      ensures r.Failure? ==> r.message == UnbalancedRestore
      ensures r.Success? ==> r.value == old(saveCount)
      ensures Run(old(saveCount), [RestoreCall]) == if r.Success? then Success(saveCount) else r
    {
      var value := saveCount;
      saveCount := saveCount - 1;
      if saveCount < 0 {
        return Failure(UnbalancedRestore);
      }
      r := Success(value);
    }

    /** `check_status()`: throws exactly when the status is not success. */
    method CheckStatus() returns (r: StatusCheck)
      ensures r.Thrown? <==> status != StatusSuccess
      ensures r.Thrown? ==> r.status == status
    {
      if status != StatusSuccess {
        return Thrown(status);
      }
      r := Passed;
    }

    /** `log_status()`: the same test as `check_status`, but the failure is logged, not thrown. */
    method LogStatus()
      modifies this`log
      ensures status != StatusSuccess ==> log == old(log) + [status]
      ensures status == StatusSuccess ==> log == old(log)
    {
      if status != StatusSuccess {
        log := log + [status];
      }
    }
  }

  // ---------------------------------------------------------------------------------------------
  // Pattern handles
  // ---------------------------------------------------------------------------------------------

  /** A `cairo_pattern_t *`; `None` in an `Option<Handle>` is the null pointer. */
  type Handle = nat

  /** The counts after one more reference to `p`, if `p` is not null. */
  function Bump(refs: map<Handle, nat>, p: Option<Handle>): map<Handle, nat>
    requires p.Some? ==> p.value in refs
  {
    if p.Some? then refs[p.value := refs[p.value] + 1] else refs
  }

  /** The counts after one reference fewer to `p`, if `p` is not null. */
  function Drop(refs: map<Handle, nat>, p: Option<Handle>): map<Handle, nat>
    requires p.Some? ==> p.value in refs && refs[p.value] > 0
  {
    if p.Some? then refs[p.value := refs[p.value] - 1] else refs
  }

  /** Stand-in for cairo's pattern objects: the reference count of every pattern created so far. */
  class CairoPatterns {
    /** A count of zero means the pattern has been destroyed. */
    var refs: map<Handle, nat>

    constructor ()
      ensures refs == map[]
    {
      refs := map[];
    }

    /** `cairo_pattern_create_*`: a new pattern `h`, chosen by cairo, with one reference. */
    method Create(h: Handle)
      requires h !in refs
      modifies this
      ensures refs == old(refs)[h := 1]
    {
      refs := refs[h := 1];
    }

    /** `cairo_pattern_reference`. */
    method Reference(h: Handle)
      requires h in refs && refs[h] > 0
      modifies this
      ensures refs == Bump(old(refs), Some(h))
    {
      refs := refs[h := refs[h] + 1];
    }

    /** `cairo_pattern_destroy`: gives one reference back. */
    method Destroy(h: Handle)
      requires h in refs && refs[h] > 0
      modifies this
      ensures refs == Drop(old(refs), Some(h))
    {
      refs := refs[h := refs[h] - 1];
    }
  }

  /** `LvtkPattern`: owns one reference to the pattern it holds, if any. */
  class Pattern {
    const lib: CairoPatterns
    var pattern: Option<Handle>

    /** The held pattern has not been destroyed. */
    ghost predicate Valid()
      reads this, lib
    {
      pattern.Some? ==> pattern.value in lib.refs && lib.refs[pattern.value] > 0
    }

    /** `isEmpty()`. */
    predicate IsEmpty(): (empty: bool)
      reads this
      ensures empty <==> !pattern.Some?
    {
      pattern == None
    }

    /** `reference_count()`: 0 for an empty pattern, otherwise cairo's count, which is positive. */
    function ReferenceCount(): (n: int)
      requires Valid()
      reads this, lib
      ensures n == 0 <==> IsEmpty()
      ensures !IsEmpty() ==> n == lib.refs[pattern.value]
    {
      if pattern == None then 0 else lib.refs[pattern.value]
    }

    /** `LvtkPattern()`. */
    constructor Empty(lib: CairoPatterns)
      ensures this.lib == lib && IsEmpty()
    {
      this.lib := lib;
      pattern := None;
    }

    /** `LvtkPattern(cairo_pattern_t *)`: takes over the caller's reference. */
    constructor Wrap(lib: CairoPatterns, p: Option<Handle>)
      ensures this.lib == lib && pattern == p
      ensures (p.Some? ==> p.value in lib.refs && lib.refs[p.value] > 0) ==> Valid()
    {
      this.lib := lib;
      pattern := p;
    }

    /** The colour and surface constructors: a pattern newly created by cairo. */
    constructor Create(lib: CairoPatterns, h: Handle)
      requires h !in lib.refs
      modifies lib
      ensures this.lib == lib && pattern == Some(h) && Valid()
      ensures lib.refs == old(lib.refs)[h := 1]
    {
      this.lib := lib;
      pattern := Some(h);
      new;
      lib.Create(h);
    }

    /** `LvtkPattern(LvtkPattern &&)`: takes the other's handle and leaves it empty. */
    constructor Move(other: Pattern)
      modifies other`pattern
      ensures lib == other.lib && pattern == old(other.pattern) && other.IsEmpty()
      ensures other.Valid() && (old(other.Valid()) ==> Valid())
    {
      lib := other.lib;
      pattern := None;
      new;
      pattern, other.pattern := other.pattern, pattern;
    }

    /** `LvtkPattern(const LvtkPattern &)`: shares the other's pattern with a reference of its own. */
    constructor Copy(other: Pattern)
      requires other.Valid()
      modifies other.lib
      ensures lib == other.lib && pattern == other.pattern && Valid()
      ensures lib.refs == Bump(old(other.lib.refs), other.pattern)
    {
      lib := other.lib;
      pattern := other.pattern;
      new;
      if pattern.Some? {
        lib.Reference(pattern.value);
      }
    }

    /** `release()`, also the destructor: gives up the reference, if any, and becomes empty. */
    method Release()
      requires Valid()
      modifies this`pattern, lib
      ensures IsEmpty() && lib.refs == Drop(old(lib.refs), old(pattern))
    {
      if pattern.Some? {
        lib.Destroy(pattern.value);
      }
      pattern := None;
    }

    /**
     * `set(cairo_pattern_t *)` as written: the parameter has the same name as the field, so the
     * referenced handle is stored in the parameter and the field keeps its value.
     */
    method SetRaw(p: Option<Handle>)
      requires p.Some? ==> p.value in lib.refs && lib.refs[p.value] > 0
      modifies lib
      ensures lib.refs == Bump(old(lib.refs), p)
      ensures old(Valid()) ==> Valid()
    {
      if p.Some? {
        lib.Reference(p.value);
      }
    }

    /** `set(const LvtkPattern &)`: holds the other's pattern with a reference of its own. */
    method SetFrom(other: Pattern)
      requires other.lib == lib && other.Valid()
      modifies this`pattern, lib
      ensures pattern == old(other.pattern) && Valid()
      ensures lib.refs == Bump(old(lib.refs), old(other.pattern))
    {
      var p := other.pattern;
      if p.Some? {
        lib.Reference(p.value);
      }
      pattern := p;
    }

    /**
     * `operator=(const LvtkPattern &)` as written: release, then copy.  Assigning a pattern to
     * itself releases the handle first and then copies the now-empty pattern.
     */
    method CopyAssign(other: Pattern)
      requires Valid() && other.Valid() && other.lib == lib
      requires other != this && pattern.Some? && other.pattern == pattern ==> lib.refs[pattern.value] > 1
      modifies this`pattern, lib
      ensures other != this ==> pattern == old(other.pattern)
      ensures other != this ==> lib.refs == Bump(Drop(old(lib.refs), old(pattern)), old(other.pattern))
      ensures other == this ==> IsEmpty() && lib.refs == Drop(old(lib.refs), old(pattern))
      ensures Valid()
    {
      Release();
      SetFrom(other);
    }

    /** `operator=(const LvtkPattern &)` with the self-assignment test it needs. */
    method CopyAssignChecked(other: Pattern)
      requires Valid() && other.Valid() && other.lib == lib
      requires other != this && pattern.Some? && other.pattern == pattern ==> lib.refs[pattern.value] > 1
      modifies this`pattern, lib
      ensures pattern == old(other.pattern) && Valid()
      ensures other != this ==> lib.refs == Bump(Drop(old(lib.refs), old(pattern)), old(other.pattern))
      ensures other == this ==> lib.refs == old(lib.refs)
    {
      if other != this {
        ghost var p := other.pattern;
        Release();
        SetFrom(other);
        assert p.Some? ==> p.value in lib.refs && lib.refs[p.value] > 0;
      }
    }

    /**
     * `operator=(cairo_pattern_t *)` as written: the old handle is released and the new one gains
     * a reference, but the pattern stays empty.
     */
    method AssignRaw(p: Option<Handle>)
      requires Valid()
      requires p.Some? ==> p.value in lib.refs && lib.refs[p.value] > 0
      requires p.Some? && p == pattern ==> lib.refs[p.value] > 1
      modifies this`pattern, lib
      ensures IsEmpty()
      ensures lib.refs == Bump(Drop(old(lib.refs), old(pattern)), p)
    {
      Release();
      SetRaw(p);
    }

    /** `operator=(cairo_pattern_t *)` as evidently intended: the pattern holds the new handle. */
    method AssignRawIntended(p: Option<Handle>)
      requires Valid()
      requires p.Some? ==> p.value in lib.refs && lib.refs[p.value] > 0
      requires p.Some? && p == pattern ==> lib.refs[p.value] > 1
      modifies this`pattern, lib
      ensures pattern == p && Valid()
      ensures lib.refs == Bump(Drop(old(lib.refs), old(pattern)), p)
    {
      Release();
      if p.Some? {
        lib.Reference(p.value);
      }
      pattern := p;
    }

    /** `operator=(LvtkPattern &&)`: the two patterns swap handles. */
    method MoveAssign(other: Pattern)
      modifies this`pattern, other`pattern
      ensures pattern == old(other.pattern) && other.pattern == old(pattern)
      ensures other.lib == lib ==> (Valid() <==> old(other.Valid())) && (other.Valid() <==> old(Valid()))
    {
      pattern, other.pattern := other.pattern, pattern;
    }
  }

  /** Assigning a live raw handle leaves the pattern empty and one reference that nobody owns. */
  method RawAssignmentLosesHandle() returns (empty: bool, count: int)
    ensures empty && count == 2
  {
    var lib := new CairoPatterns();
    var p := new Pattern.Empty(lib);
    lib.Create(7);
    p.AssignRaw(Some(7));
    empty := p.IsEmpty();
    count := lib.refs[7];
  }

  /** With the intended assignment the same call leaves the pattern holding the handle. */
  method RawAssignmentKeepsHandle() returns (held: Option<Handle>, count: int)
    ensures held == Some(7) && count == 2
  {
    var lib := new CairoPatterns();
    var p := new Pattern.Empty(lib);
    lib.Create(7);
    p.AssignRawIntended(Some(7));
    held := p.pattern;
    count := p.ReferenceCount();
  }

  /** Assigning a pattern to itself empties it and destroys its only reference. */
  method SelfAssignmentEmpties() returns (empty: bool, count: int)
    ensures empty && count == 0
  {
    var lib := new CairoPatterns();
    var p := new Pattern.Create(lib, 3);
    p.CopyAssign(p);
    empty := p.IsEmpty();
    count := lib.refs[3];
  }

  /** With the self-assignment test the same call keeps the pattern and its count. */
  method SelfAssignmentKeeps() returns (held: Option<Handle>, count: int)
    ensures held == Some(3) && count == 1
  {
    var lib := new CairoPatterns();
    var p := new Pattern.Create(lib, 3);
    p.CopyAssignChecked(p);
    held := p.pattern;
    count := p.ReferenceCount();
  }
}
