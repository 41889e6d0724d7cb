// Uniform variables of a technique: the pending log is compacted into the
// current list by name, and only newly committed entries are sent.
module Uniforms {
  import opened Common

  datatype UniformType = Int | Uint | Float | Unknown

  datatype Uniform = Uniform(
    kind: UniformType,
    location: nat,
    name: string,
    col: nat,
    row: nat,
    count: nat,
    transpose: bool,
    value: Bytes,
    newlyCommitted: bool)
  {
    // A vector whose type is outside the protocol's enumeration is never sent.
    predicate Sendable() {
      col == 1 ==> kind != Unknown
    }

    function Flagged(flag: bool): Uniform {
      this.(newlyCommitted := flag)
    }
  }

  // What the renderer stores for one uniform.
  datatype Value =
    | Vector(kind: UniformType, size: nat, vectorCount: nat, vectorData: Bytes)
    | Matrix(col: nat, row: nat, matrixCount: nat, transpose: bool, matrixData: Bytes)

  // One uniform call on the remote technique.
  datatype Message = Message(location: nat, name: string, value: Value)

  function MessageOf(u: Uniform): Message {
    Message(u.location, u.name,
            if u.col == 1 then Vector(u.kind, u.row, u.count, u.value)
            else Matrix(u.col, u.row, u.count, u.transpose, u.value))
  }

  // The renderer is told each number under its own name.
  lemma MessageTellsUniform(u: Uniform)
    ensures var m := MessageOf(u);
            && m.location == u.location && m.name == u.name
            && (u.col == 1 <==> m.value.Vector?)
            && (m.value.Vector? ==>
                  && m.value.kind == u.kind && m.value.size == u.row && m.value.vectorCount == u.count
                  && m.value.vectorData == u.value)
            && (m.value.Matrix? ==>
                  && m.value.col == u.col && m.value.row == u.row && m.value.matrixCount == u.count
                  && m.value.transpose == u.transpose && m.value.matrixData == u.value)
  {
  }

  // What is sent of a list: a matrix always, a vector if its type is known, each
  // if it is new or all are forced.
  lemma {:induction false} SentIff(us: seq<Uniform>, force: bool, m: Message)
    ensures m in Messages(us, force) <==>
            exists u :: u in us && m == MessageOf(u) && (force || u.newlyCommitted)
                          && (u.col == 1 ==> u.kind in {Int, Uint, Float})
  {
    if us != [] {
      var init, last := us[..|us| - 1], us[|us| - 1];
      SentIff(init, force, m);
      assert us == init + [last];
    }
  }

  // How the renderer finds the slot of a uniform: by name when there is one,
  // by location otherwise. Two keys may share a slot.
  datatype Lookup = Lookup(byName: string -> int, byLocation: nat -> int) {
    function Slot(location: nat, name: string): int {
      if name != "" then byName(name) else byLocation(location)
    }
  }

  function ReplayFrom(lookup: Lookup, start: map<int, Value>, log: seq<Message>): map<int, Value> {
    if log == [] then start
    else
      var last := log[|log| - 1];
      ReplayFrom(lookup, start, log[..|log| - 1])[lookup.Slot(last.location, last.name) := last.value]
  }

  // The renderer's uniform state after the calls `log` arrive in order.
  function Replay(lookup: Lookup, log: seq<Message>): map<int, Value> {
    ReplayFrom(lookup, map[], log)
  }

  // The calls a sync makes for a list.
  function Messages(us: seq<Uniform>, force: bool): seq<Message> {
    if us == [] then []
    else
      var rest, last := Messages(us[..|us| - 1], force), us[|us| - 1];
      if (force || last.newlyCommitted) && last.Sendable() then rest + [MessageOf(last)] else rest
  }

  // `log` leaves the renderer in the state that a full resend of `us` would
  // leave an empty renderer in, whatever its slot lookup.
  ghost predicate Mirrors(log: seq<Message>, us: seq<Uniform>) {
    forall lookup: Lookup :: Replay(lookup, log) == Replay(lookup, Messages(us, true))
  }

  // ---- the lists ----------------------------------------------------------

  function Unflag(us: seq<Uniform>): (r: seq<Uniform>)
    ensures |r| == |us| && forall i :: 0 <= i < |us| ==> r[i] == us[i].Flagged(false)
  {
    if us == [] then [] else Unflag(us[..|us| - 1]) + [us[|us| - 1].Flagged(false)]
  }

  function RemoveNamed(us: seq<Uniform>, name: string): seq<Uniform> {
    if us == [] then []
    else
      var rest, last := RemoveNamed(us[..|us| - 1], name), us[|us| - 1];
      if name != "" && last.name == name then rest else rest + [last]
  }

  function Absorb(current: seq<Uniform>, u: Uniform): seq<Uniform> {
    RemoveNamed(current, u.name) + [u.Flagged(true)]
  }

  function AbsorbAll(current: seq<Uniform>, pending: seq<Uniform>): seq<Uniform> {
    if pending == [] then current
    else Absorb(AbsorbAll(current, pending[..|pending| - 1]), pending[|pending| - 1])
  }

  function CommitList(current: seq<Uniform>, pending: seq<Uniform>): seq<Uniform> {
    AbsorbAll(Unflag(current), pending)
  }

  function Newly(us: seq<Uniform>): seq<Uniform> {
    if us == [] then []
    else
      var rest, last := Newly(us[..|us| - 1]), us[|us| - 1];
      if last.newlyCommitted then rest + [last] else rest
  }

  // The last entry of a name.
  function LastNamed(us: seq<Uniform>, name: string): Option<Uniform> {
    if us == [] then None
    else if us[|us| - 1].name == name then Some(us[|us| - 1])
    else LastNamed(us[..|us| - 1], name)
  }

  // Something of that name is sent.
  ghost predicate Sends(us: seq<Uniform>, name: string) {
    exists u :: u in us && u.name == name && u.Sendable()
  }

  // A name was sent, and is last given to a vector of unknown type: that is
  // not sent, but has taken the place of what was.
  ghost predicate Displaces(before: seq<Uniform>, later: seq<Uniform>, name: string) {
    name != "" && Sends(before, name) && LastNamed(later, name).Some? && !LastNamed(later, name).value.Sendable()
  }

  predicate NamesUnique(us: seq<Uniform>) {
    forall i, j :: 0 <= i < j < |us| && us[i].name != "" ==> us[i].name != us[j].name
  }

  // Everything ever committed, oldest batch first, and the list it leaves.
  function Flatten(batches: seq<seq<Uniform>>): seq<Uniform> {
    if batches == [] then [] else Flatten(batches[..|batches| - 1]) + batches[|batches| - 1]
  }

  function CommitBatches(batches: seq<seq<Uniform>>): seq<Uniform> {
    if batches == [] then []
    else CommitList(CommitBatches(batches[..|batches| - 1]), batches[|batches| - 1])
  }

  // ---- replay algebra -------------------------------------------------------

  lemma {:induction false} ReplayAppend(lookup: Lookup, start: map<int, Value>, a: seq<Message>, b: seq<Message>)
    ensures ReplayFrom(lookup, start, a + b) == ReplayFrom(lookup, ReplayFrom(lookup, start, a), b)
  {
    if b == [] {
      assert a + b == a;
    } else {
      assert (a + b)[..|a + b| - 1] == a + b[..|b| - 1];
      ReplayAppend(lookup, start, a, b[..|b| - 1]);
    }
  }

  lemma MessagesSnoc(us: seq<Uniform>, u: Uniform, force: bool)
    ensures Messages(us + [u], force) ==
            Messages(us, force) + if (force || u.newlyCommitted) && u.Sendable() then [MessageOf(u)] else []
  {
    assert (us + [u])[..|us + [u]| - 1] == us;
  }

  lemma {:induction false} MessagesAppend(a: seq<Uniform>, b: seq<Uniform>, force: bool)
    ensures Messages(a + b, force) == Messages(a, force) + Messages(b, force)
  {
    if b == [] {
      assert a + b == a;
    } else {
      assert (a + b)[..|a + b| - 1] == a + b[..|b| - 1];
      MessagesAppend(a, b[..|b| - 1], force);
    }
  }

  lemma {:induction false} MessagesUnflag(us: seq<Uniform>)
    ensures Messages(Unflag(us), true) == Messages(us, true)
    ensures Newly(Unflag(us)) == []
  {
    if us != [] {
      MessagesUnflag(us[..|us| - 1]);
      assert Unflag(us)[..|us| - 1] == Unflag(us[..|us| - 1]);
    }
  }

  lemma ReplaySnoc(lookup: Lookup, start: map<int, Value>, us: seq<Uniform>, u: Uniform)
    ensures ReplayFrom(lookup, start, Messages(us + [u], true)) ==
            var before := ReplayFrom(lookup, start, Messages(us, true));
            if u.Sendable() then before[lookup.Slot(u.location, u.name) := MessageOf(u).value] else before
  {
    MessagesSnoc(us, u, true);
    var m := Messages(us, true);
    if u.Sendable() {
      assert (m + [MessageOf(u)])[..|m|] == m;
    } else {
      assert m + [] == m;
    }
  }

  lemma OverwriteLater(a: map<int, Value>, b: map<int, Value>, s: int, w: Value, k: int, v: Value)
    requires a[k := v] == b[k := v]
    ensures a[s := w][k := v] == b[s := w][k := v]
  {
    assert a[s := w][k := v] == if s == k then a[k := v] else a[k := v][s := w];
    assert b[s := w][k := v] == if s == k then b[k := v] else b[k := v][s := w];
  }

  // Dropping the entries of one name changes at most that name's slot.
  lemma {:induction false} ReplayRemoveNamed(
    lookup: Lookup, start: map<int, Value>, us: seq<Uniform>, name: string, v: Value)
    requires name != ""
    ensures ReplayFrom(lookup, start, Messages(RemoveNamed(us, name), true))[lookup.byName(name) := v]
         == ReplayFrom(lookup, start, Messages(us, true))[lookup.byName(name) := v]
  {
    if us != [] {
      var init, last := us[..|us| - 1], us[|us| - 1];
      ReplayRemoveNamed(lookup, start, init, name, v);
      assert us == init + [last];
      ReplaySnoc(lookup, start, init, last);
      if last.name != name {
        ReplaySnoc(lookup, start, RemoveNamed(init, name), last);
        OverwriteLater(ReplayFrom(lookup, start, Messages(RemoveNamed(init, name), true)),
                       ReplayFrom(lookup, start, Messages(init, true)),
                       lookup.Slot(last.location, last.name), MessageOf(last).value, lookup.byName(name), v);
      }
    }
  }

  lemma RemoveUnnamed(us: seq<Uniform>)
    ensures RemoveNamed(us, "") == us
  {
    if us != [] {
      RemoveUnnamed(us[..|us| - 1]);
    }
  }

  lemma {:induction false} RemoveUnsendable(us: seq<Uniform>, name: string)
    requires name == "" || !Sends(us, name)
    ensures Messages(RemoveNamed(us, name), true) == Messages(us, true)
  {
    if us != [] {
      var init, last := us[..|us| - 1], us[|us| - 1];
      RemoveUnsendable(init, name);
      MessagesSnoc(RemoveNamed(init, name), last, true);
      assert last in us;
    }
  }

  // What is sent under a name overwrites whatever was in its slot.
  lemma {:induction false} SentOverwrites(
    lookup: Lookup, a: map<int, Value>, b: map<int, Value>, us: seq<Uniform>, name: string, v: Value)
    requires name != "" && a[lookup.byName(name) := v] == b[lookup.byName(name) := v]
    ensures ReplayFrom(lookup, a, Messages(us, true))[lookup.byName(name) := v]
         == ReplayFrom(lookup, b, Messages(us, true))[lookup.byName(name) := v]
    ensures Sends(us, name) ==> ReplayFrom(lookup, a, Messages(us, true)) == ReplayFrom(lookup, b, Messages(us, true))
  {
    if us != [] {
      var init, last := us[..|us| - 1], us[|us| - 1];
      SentOverwrites(lookup, a, b, init, name, v);
      assert us == init + [last];
      ReplaySnoc(lookup, a, init, last);
      ReplaySnoc(lookup, b, init, last);
      var x, y := ReplayFrom(lookup, a, Messages(init, true)), ReplayFrom(lookup, b, Messages(init, true));
      if last.Sendable() {
        var k, w := lookup.Slot(last.location, last.name), MessageOf(last).value;
        OverwriteLater(x, y, k, w, lookup.byName(name), v);
        if last.name == name {
          assert x[k := v][k := w] == x[k := w] && y[k := v][k := w] == y[k := w];
        }
      }
    }
  }

  // Entries of a name may go when one of that name is sent later, or when
  // none of them is sent.
  lemma RemovedBefore(lookup: Lookup, a: seq<Uniform>, b: seq<Uniform>, name: string)
    requires name == "" || Sends(b, name) || !Sends(a, name)
    ensures Replay(lookup, Messages(RemoveNamed(a, name) + b, true)) == Replay(lookup, Messages(a + b, true))
  {
    MessagesAppend(a, b, true);
    MessagesAppend(RemoveNamed(a, name), b, true);
    if name == "" || !Sends(a, name) {
      RemoveUnsendable(a, name);
    } else {
      var v :| v == Vector(Int, 0, 0, []);
      ReplayAppend(lookup, map[], Messages(a, true), Messages(b, true));
      ReplayAppend(lookup, map[], Messages(RemoveNamed(a, name), true), Messages(b, true));
      ReplayRemoveNamed(lookup, map[], a, name, v);
      SentOverwrites(lookup, Replay(lookup, Messages(RemoveNamed(a, name), true)), Replay(lookup, Messages(a, true)),
                     b, name, v);
    }
  }

  // ---- compaction ---------------------------------------------------------------

  lemma {:induction false} RemoveNamedElements(us: seq<Uniform>, name: string)
    ensures forall u :: u in RemoveNamed(us, name) <==> u in us && (name == "" || u.name != name)
  {
    if us != [] {
      RemoveNamedElements(us[..|us| - 1], name);
      assert us == us[..|us| - 1] + [us[|us| - 1]];
    }
  }

  lemma {:induction false} LastNamedIn(us: seq<Uniform>, name: string)
    ensures LastNamed(us, name).Some? <==> exists u :: u in us && u.name == name
    ensures LastNamed(us, name).Some? ==> LastNamed(us, name).value in us && LastNamed(us, name).value.name == name
  {
    if us != [] {
      LastNamedIn(us[..|us| - 1], name);
      assert us == us[..|us| - 1] + [us[|us| - 1]];
    }
  }

  // Of each name in the pending list the last entry is left, and of every
  // other name what there was before.
  lemma {:induction false} AbsorbAllSends(current: seq<Uniform>, pending: seq<Uniform>, name: string)
    requires name != ""
    ensures Sends(AbsorbAll(current, pending), name) <==>
            (if LastNamed(pending, name).Some? then LastNamed(pending, name).value.Sendable() else Sends(current, name))
  {
    if pending != [] {
      var init, last := pending[..|pending| - 1], pending[|pending| - 1];
      AbsorbAllSends(current, init, name);
      var before := AbsorbAll(current, init);
      RemoveNamedElements(before, last.name);
      var after := RemoveNamed(before, last.name) + [last.Flagged(true)];
      assert after[|after| - 1] == last.Flagged(true);
      if last.name != name && Sends(before, name) {
        var u :| u in before && u.name == name && u.Sendable();
        assert u in after;
      }
    }
  }

  lemma MessagesIgnoreFlag(a: seq<Uniform>, u: Uniform, b: seq<Uniform>)
    ensures Messages(a + [u.Flagged(true)] + b, true) == Messages(a + [u] + b, true)
  {
    MessagesAppend(a + [u.Flagged(true)], b, true);
    MessagesAppend(a + [u], b, true);
    MessagesSnoc(a, u, true);
    MessagesSnoc(a, u.Flagged(true), true);
  }

  lemma {:induction false} SendsWithin(us: seq<Uniform>, n: nat, name: string)
    requires n <= |us| && LastNamed(us, name).Some? && LastNamed(us, name).value.Sendable()
    requires n < |us| && us[n].name == name
    ensures Sends(us[n..], name)
  {
    var last := us[|us| - 1];
    if last.name == name {
      assert last in us[n..];
    } else {
      SendsWithin(us[..|us| - 1], n, name);
      assert us[n..] == us[..|us| - 1][n..] + [last];
    }
  }

  // Absorbing the first entries of a log changes nothing of what the log says.
  lemma {:induction false} CompactPrefix(lookup: Lookup, log: seq<Uniform>, n: nat)
    requires n <= |log| && forall name :: !Displaces(log, log, name)
    ensures Replay(lookup, Messages(AbsorbAll([], log[..n]) + log[n..], true)) == Replay(lookup, Messages(log, true))
  {
    if n == 0 {
      assert [] + log == log;
    } else {
      var k := n - 1;
      CompactPrefix(lookup, log, k);
      var before, u := AbsorbAll([], log[..k]), log[k];
      assert log[..n][..k] == log[..k];
      assert AbsorbAll([], log[..n]) + log[n..] == RemoveNamed(before, u.name) + [u.Flagged(true)] + log[n..];
      assert RemoveNamed(before, u.name) + [u] + log[n..] == RemoveNamed(before, u.name) + log[k..];
      MessagesIgnoreFlag(RemoveNamed(before, u.name), u, log[n..]);
      if u.name != "" {
        LastNamedIn(log, u.name);
        assert u in log;
        if LastNamed(log, u.name).value.Sendable() {
          SendsWithin(log, k, u.name);
        } else {
          assert !Displaces(log, log, u.name);
          AbsorbAllSends([], log[..k], u.name);
          LastNamedIn(log[..k], u.name);
        }
      }
      RemovedBefore(lookup, before, log[k..], u.name);
    }
  }

  lemma {:induction false} UnflagRemove(us: seq<Uniform>, name: string)
    ensures Unflag(RemoveNamed(us, name)) == RemoveNamed(Unflag(us), name)
  {
    if us != [] {
      var init, last := us[..|us| - 1], us[|us| - 1];
      UnflagRemove(init, name);
      UnflagSnoc(RemoveNamed(init, name), last);
      assert Unflag(us)[..|us| - 1] == Unflag(init);
    }
  }

  lemma UnflagSnoc(us: seq<Uniform>, u: Uniform)
    ensures Unflag(us + [u]) == Unflag(us) + [u.Flagged(false)]
  {
  }

  lemma {:induction false} UnflagAbsorbAll(a: seq<Uniform>, b: seq<Uniform>, pending: seq<Uniform>)
    requires Unflag(a) == Unflag(b)
    ensures Unflag(AbsorbAll(a, pending)) == Unflag(AbsorbAll(b, pending))
  {
    if pending != [] {
      var init, last := pending[..|pending| - 1], pending[|pending| - 1];
      UnflagAbsorbAll(a, b, init);
      UnflagRemove(AbsorbAll(a, init), last.name);
      UnflagRemove(AbsorbAll(b, init), last.name);
      UnflagSnoc(RemoveNamed(AbsorbAll(a, init), last.name), last.Flagged(true));
      UnflagSnoc(RemoveNamed(AbsorbAll(b, init), last.name), last.Flagged(true));
    }
  }

  lemma {:induction false} AbsorbAllAppend(current: seq<Uniform>, a: seq<Uniform>, b: seq<Uniform>)
    ensures AbsorbAll(current, a + b) == AbsorbAll(AbsorbAll(current, a), b)
  {
    if b == [] {
      assert a + b == a;
    } else {
      AbsorbAllAppend(current, a, b[..|b| - 1]);
      assert (a + b)[..|a + b| - 1] == a + b[..|b| - 1];
    }
  }

  // Batch by batch or all at once, only the flags differ.
  lemma {:induction false} BatchesAreOne(batches: seq<seq<Uniform>>)
    ensures Unflag(CommitBatches(batches)) == Unflag(AbsorbAll([], Flatten(batches)))
  {
    if batches != [] {
      var init, last := batches[..|batches| - 1], batches[|batches| - 1];
      BatchesAreOne(init);
      var before := CommitBatches(init);
      UnflagTwice(before);
      UnflagAbsorbAll(Unflag(before), AbsorbAll([], Flatten(init)), last);
      AbsorbAllAppend([], Flatten(init), last);
    }
  }

  lemma UnflagTwice(us: seq<Uniform>)
    ensures Unflag(Unflag(us)) == Unflag(us)
  {
  }

  // ---- what a sync sends ----------------------------------------------------

  lemma {:induction false} MessagesNewly(us: seq<Uniform>)
    ensures Messages(us, false) == Messages(Newly(us), true)
  {
    if us != [] {
      var init, last := us[..|us| - 1], us[|us| - 1];
      MessagesNewly(init);
      MessagesSnoc(Newly(init), last, true);
    }
  }

  lemma NewlySnoc(us: seq<Uniform>, u: Uniform)
    ensures Newly(us + [u]) == Newly(us) + if u.newlyCommitted then [u] else []
  {
    assert (us + [u])[..|us + [u]| - 1] == us;
  }

  lemma {:induction false} NewlyRemoveNamed(us: seq<Uniform>, name: string)
    ensures Newly(RemoveNamed(us, name)) == RemoveNamed(Newly(us), name)
  {
    if us != [] {
      var init, last := us[..|us| - 1], us[|us| - 1];
      NewlyRemoveNamed(init, name);
      NewlySnoc(RemoveNamed(init, name), last);
      var new1 := Newly(init);
      assert (new1 + [last])[..|new1 + [last]| - 1] == new1;
    }
  }

  lemma {:induction false} NewlyAbsorbAll(current: seq<Uniform>, pending: seq<Uniform>)
    ensures Newly(AbsorbAll(current, pending)) == AbsorbAll(Newly(current), pending)
  {
    if pending != [] {
      var init, last := pending[..|pending| - 1], pending[|pending| - 1];
      NewlyAbsorbAll(current, init);
      var before := AbsorbAll(current, init);
      NewlyRemoveNamed(before, last.name);
      NewlySnoc(RemoveNamed(before, last.name), last.Flagged(true));
    }
  }

  // ---- main results -----------------------------------------------------------

  // A slot lookup that keeps one name apart from all else.
  function Apart(name: string): Lookup {
    Lookup(n => if n == name then 0 else 1, _ => 1)
  }

  lemma {:induction false} SlotOfName(name: string, us: seq<Uniform>)
    requires name != ""
    ensures 0 in Replay(Apart(name), Messages(us, true)) <==> Sends(us, name)
  {
    if us != [] {
      var init, last := us[..|us| - 1], us[|us| - 1];
      assert us == init + [last];
      SlotOfName(name, init);
      ReplaySnoc(Apart(name), map[], init, last);
    }
  }

  // Compaction preserves meaning iff no name that was sent ends with a vector
  // of unknown type: the compacted list then stands for the same renderer
  // state as every uniform ever committed, for every slot lookup.
  lemma CompactionPreservesMeaningIff(batches: seq<seq<Uniform>>)
    ensures Mirrors(Messages(Flatten(batches), true), CommitBatches(batches)) <==>
            forall name :: !Displaces(Flatten(batches), Flatten(batches), name)
  {
    var log, list := Flatten(batches), CommitBatches(batches);
    BatchesAreOne(batches);
    MessagesUnflag(list);
    MessagesUnflag(AbsorbAll([], log));
    if forall name :: !Displaces(log, log, name) {
      forall lookup: Lookup
        ensures Replay(lookup, Messages(log, true)) == Replay(lookup, Messages(list, true))
      {
        CompactPrefix(lookup, log, |log|);
        assert log[..|log|] == log && AbsorbAll([], log) + log[|log|..] == AbsorbAll([], log);
      }
    } else {
      var name :| Displaces(log, log, name);
      AbsorbAllSends([], log, name);
      SlotOfName(name, log);
      SlotOfName(name, AbsorbAll([], log));
      assert Replay(Apart(name), Messages(log, true)) != Replay(Apart(name), Messages(list, true));
    }
  }

  lemma {:induction false} RemoveNamedAppend(a: seq<Uniform>, b: seq<Uniform>, name: string)
    ensures RemoveNamed(a + b, name) == RemoveNamed(a, name) + RemoveNamed(b, name)
  {
    if b == [] {
      assert a + b == a;
    } else {
      RemoveNamedAppend(a, b[..|b| - 1], name);
      assert (a + b)[..|a + b| - 1] == a + b[..|b| - 1];
    }
  }

  // Of each name the last entry, and every entry that has no name.
  ghost function Latest(us: seq<Uniform>): seq<Uniform> {
    if us == [] then []
    else if Renamed(us) then Latest(us[1..])
    else [us[0].Flagged(false)] + Latest(us[1..])
  }

  // A later entry has the name of the first.
  ghost predicate Renamed(us: seq<Uniform>)
    requires us != []
  {
    us[0].name != "" && exists k :: 0 < k < |us| && us[k].name == us[0].name
  }

  lemma RenamedSnoc(us: seq<Uniform>, u: Uniform)
    requires us != []
    ensures Renamed(us + [u]) <==> Renamed(us) || (u.name != "" && us[0].name == u.name)
  {
    var more := us + [u];
    assert more[|us|] == u;
    if Renamed(us) {
      var k :| 0 < k < |us| && us[k].name == us[0].name;
      assert more[k].name == more[0].name;
    }
  }

  lemma {:induction false} LatestSnoc(us: seq<Uniform>, u: Uniform)
    ensures Latest(us + [u]) == RemoveNamed(Latest(us), u.name) + [u.Flagged(false)]
  {
    hide Renamed, RemoveNamed, Latest;
    if us == [] {
      LatestOne(u);
      assert us + [u] == [u];
    } else {
      LatestSnoc(us[1..], u);
      LatestFromFront(us, u);
    }
  }

  lemma LatestFromFront(us: seq<Uniform>, u: Uniform)
    requires us != [] && Latest(us[1..] + [u]) == RemoveNamed(Latest(us[1..]), u.name) + [u.Flagged(false)]
    ensures Latest(us + [u]) == RemoveNamed(Latest(us), u.name) + [u.Flagged(false)]
  {
    hide Renamed, RemoveNamed, Latest;
    var head, rest, left := us[0].Flagged(false), Latest(us[1..]), RemoveNamed(Latest(us[1..]), u.name);
    RenamedSnoc(us, u);
    LatestParts(us, us[1..]);
    LatestParts(us + [u], us[1..] + [u]);
    if !Renamed(us) {
      RemoveNamedAppend([head], rest, u.name);
      RemoveFromOne(head, u.name);
      if Renamed(us + [u]) {
        assert [] + left == left;
      } else {
        assert [head] + (left + [u.Flagged(false)]) == [head] + left + [u.Flagged(false)];
      }
    }
  }

  lemma LatestParts(us: seq<Uniform>, rest: seq<Uniform>)
    requires us != [] && us[1..] == rest
    ensures Latest(us) == if Renamed(us) then Latest(rest) else [us[0].Flagged(false)] + Latest(rest)
  {
    hide Renamed;
  }

  lemma LatestOne(u: Uniform)
    ensures Latest([u]) == [u.Flagged(false)] && Latest([]) == [] && RemoveNamed([], u.name) == []
  {
    assert [u][1..] == [];
  }

  lemma RemoveFromOne(u: Uniform, name: string)
    ensures RemoveNamed([u], name) == if name != "" && u.name == name then [] else [u]
  {
    assert [u][..0] == [];
  }

  // The compacted log is the latest entries, in order.
  lemma {:induction false} AbsorbedIsLatest(us: seq<Uniform>)
    ensures Unflag(AbsorbAll([], us)) == Latest(us)
  {
    if us != [] {
      var init, last := us[..|us| - 1], us[|us| - 1];
      AbsorbedIsLatest(init);
      assert us == init + [last];
      LatestSnoc(init, last);
      UnflagRemove(AbsorbAll([], init), last.name);
      UnflagSnoc(RemoveNamed(AbsorbAll([], init), last.name), last.Flagged(true));
    }
  }

  // A commit leaves the latest of what was there and what was pending.
  lemma CommitLeavesLatest(current: seq<Uniform>, log: seq<Uniform>, pending: seq<Uniform>)
    requires Unflag(current) == Latest(log)
    ensures Unflag(CommitList(current, pending)) == Latest(log + pending)
  {
    AbsorbedIsLatest(log);
    AbsorbedIsLatest(log + pending);
    UnflagTwice(current);
    UnflagAbsorbAll(Unflag(current), AbsorbAll([], log), pending);
    AbsorbAllAppend([], log, pending);
  }

  // A copy that mirrors the latest entries mirrors the whole log, iff no name
  // that was sent ends with a vector of unknown type.
  lemma LatestMeansAllIff(log: seq<Uniform>, current: seq<Uniform>, sent: seq<Message>)
    requires Unflag(current) == Latest(log) && Mirrors(sent, current)
    ensures Mirrors(sent, log) <==> forall name :: !Displaces(log, log, name)
  {
    hide AbsorbAll, Displaces, Replay, Flatten;
    OneBatch(log);
    CompactionPreservesMeaningIff([log]);
    AbsorbedIsLatest(log);
    MessagesUnflag(current);
    MessagesUnflag(AbsorbAll([], log));
    var list := AbsorbAll([], log);
    assert Messages(list, true) == Messages(current, true);
    assert Mirrors(Messages(log, true), list) <==> Mirrors(sent, log) by {
      SameMirror(log, list, current, sent);
    }
  }

  lemma OneBatch(log: seq<Uniform>)
    ensures Flatten([log]) == log && CommitBatches([log]) == AbsorbAll([], log)
  {
    assert [log][..0] == [];
    assert Flatten([]) + log == log;
  }

  lemma SameMirror(log: seq<Uniform>, list: seq<Uniform>, current: seq<Uniform>, sent: seq<Message>)
    requires Messages(list, true) == Messages(current, true) && Mirrors(sent, current)
    ensures Mirrors(Messages(log, true), list) <==> Mirrors(sent, log)
  {
    hide Replay;
    if Mirrors(sent, log) {
      forall lookup: Lookup
        ensures Replay(lookup, Messages(log, true)) == Replay(lookup, Messages(list, true))
      {
        assert Replay(lookup, sent) == Replay(lookup, Messages(log, true));
      }
    }
    if Mirrors(Messages(log, true), list) {
      forall lookup: Lookup
        ensures Replay(lookup, sent) == Replay(lookup, Messages(log, true))
      {
        assert Replay(lookup, Messages(log, true)) == Replay(lookup, Messages(list, true));
      }
    }
  }

  // What is left of a list when the names of another are removed.
  function RemoveAll(current: seq<Uniform>, pending: seq<Uniform>): seq<Uniform> {
    if pending == [] then current
    else RemoveNamed(RemoveAll(current, pending[..|pending| - 1]), pending[|pending| - 1].name)
  }

  lemma {:induction false} AbsorbAllSplit(current: seq<Uniform>, pending: seq<Uniform>)
    ensures AbsorbAll(current, pending) == RemoveAll(current, pending) + AbsorbAll([], pending)
  {
    if pending != [] {
      var init, last := pending[..|pending| - 1], pending[|pending| - 1];
      AbsorbAllSplit(current, init);
      RemoveNamedAppend(RemoveAll(current, init), AbsorbAll([], init), last.name);
    }
  }

  lemma {:induction false} RemoveAllElements(current: seq<Uniform>, pending: seq<Uniform>)
    ensures forall u :: u in RemoveAll(current, pending) ==> u in current
  {
    if pending != [] {
      RemoveAllElements(current, pending[..|pending| - 1]);
      RemoveNamedElements(RemoveAll(current, pending[..|pending| - 1]), pending[|pending| - 1].name);
    }
  }

  // Removing the names of the first n pending entries does not show once the
  // new entries are sent.
  lemma {:induction false} RemovedBeforeNew(lookup: Lookup, current: seq<Uniform>, pending: seq<Uniform>, n: nat)
    requires n <= |pending| && forall name :: !Displaces(current, pending, name)
    ensures Replay(lookup, Messages(RemoveAll(current, pending[..n]) + AbsorbAll([], pending), true)) ==
            Replay(lookup, Messages(current + AbsorbAll([], pending), true))
  {
    if n > 0 {
      var k, name := n - 1, pending[n - 1].name;
      RemovedBeforeNew(lookup, current, pending, k);
      assert pending[..n][..k] == pending[..k];
      if name != "" {
        LastNamedIn(pending, name);
        assert pending[k] in pending;
        AbsorbAllSends([], pending, name);
        RemoveAllElements(current, pending[..k]);
        assert !Displaces(current, pending, name);
      }
      RemovedBefore(lookup, RemoveAll(current, pending[..k]), AbsorbAll([], pending), name);
    }
  }

  lemma UnflagSends(us: seq<Uniform>, name: string)
    ensures Sends(Unflag(us), name) <==> Sends(us, name)
  {
    if Sends(us, name) {
      var i :| 0 <= i < |us| && us[i].name == name && us[i].Sendable();
      assert Unflag(us)[i] in Unflag(us);
    }
    if Sends(Unflag(us), name) {
      var i :| 0 <= i < |us| && Unflag(us)[i].name == name && Unflag(us)[i].Sendable();
      assert us[i] in us;
    }
  }

  lemma NewMessages(current: seq<Uniform>, pending: seq<Uniform>)
    ensures Messages(CommitList(current, pending), false) == Messages(AbsorbAll([], pending), true)
  {
    MessagesUnflag(current);
    NewlyAbsorbAll(Unflag(current), pending);
    MessagesNewly(CommitList(current, pending));
  }

  lemma NewReplayed(lookup: Lookup, log: seq<Message>, current: seq<Uniform>, pending: seq<Uniform>)
    requires Replay(lookup, log) == Replay(lookup, Messages(current, true))
    ensures Replay(lookup, log + Messages(CommitList(current, pending), false)) ==
            Replay(lookup, Messages(Unflag(current) + AbsorbAll([], pending), true))
  {
    var fresh' := AbsorbAll([], pending);
    NewMessages(current, pending);
    MessagesUnflag(current);
    MessagesAppend(Unflag(current), fresh', true);
    ReplayAppend(lookup, map[], log, Messages(fresh', true));
    ReplayAppend(lookup, map[], Messages(Unflag(current), true), Messages(fresh', true));
  }

  // Sending only the newly committed entries brings a renderer that mirrors
  // the old list to one that mirrors the new list iff the commit displaces no
  // name.
  lemma IncrementalSendIff(log: seq<Message>, current: seq<Uniform>, pending: seq<Uniform>)
    requires Mirrors(log, current)
    ensures Mirrors(log + Messages(CommitList(current, pending), false), CommitList(current, pending)) <==>
            forall name :: !Displaces(current, pending, name)
  {
    var list, old', fresh' := CommitList(current, pending), Unflag(current), AbsorbAll([], pending);
    AbsorbAllSplit(old', pending);
    if forall name :: !Displaces(current, pending, name) {
      forall name
        ensures !Displaces(old', pending, name)
      {
        assert !Displaces(current, pending, name);
        UnflagSends(current, name);
      }
      forall lookup: Lookup
        ensures Replay(lookup, log + Messages(list, false)) == Replay(lookup, Messages(list, true))
      {
        assert Replay(lookup, log) == Replay(lookup, Messages(current, true));
        NewReplayed(lookup, log, current, pending);
        RemovedBeforeNew(lookup, old', pending, |pending|);
        assert pending[..|pending|] == pending;
      }
    } else {
      var name :| Displaces(current, pending, name);
      assert Replay(Apart(name), log) == Replay(Apart(name), Messages(current, true));
      NewReplayed(Apart(name), log, current, pending);
      SlotOfName(name, old' + fresh');
      SlotOfName(name, list);
      AbsorbAllSends(old', pending, name);
      UnflagSends(current, name);
      var u :| u in old' && u.name == name && u.Sendable();
      assert u in old' + fresh';
    }
  }

  lemma {:induction false} RemoveNamedUnique(us: seq<Uniform>, name: string)
    requires NamesUnique(us)
    ensures NamesUnique(RemoveNamed(us, name))
  {
    if us != [] {
      var init, last := us[..|us| - 1], us[|us| - 1];
      RemoveNamedUnique(init, name);
      RemoveNamedElements(init, name);
      var kept := RemoveNamed(init, name);
      forall i | 0 <= i < |kept| && kept[i].name != ""
        ensures kept[i].name != last.name
      {
        assert kept[i] in init;
      }
    }
  }

  lemma {:induction false} AbsorbAllUnique(current: seq<Uniform>, pending: seq<Uniform>)
    requires NamesUnique(current)
    ensures NamesUnique(AbsorbAll(current, pending))
  {
    if pending != [] {
      var init, last := pending[..|pending| - 1], pending[|pending| - 1];
      AbsorbAllUnique(current, init);
      var before := AbsorbAll(current, init);
      RemoveNamedUnique(before, last.name);
      RemoveNamedElements(before, last.name);
      var kept := RemoveNamed(before, last.name);
      forall i | 0 <= i < |kept| && kept[i].name != ""
        ensures kept[i].name != last.name
      {
        assert kept[i] in kept;
      }
    }
  }

  // A compacted list never holds two entries of one non-empty name.
  lemma NamesStayUnique(current: seq<Uniform>, pending: seq<Uniform>)
    requires NamesUnique(current)
    ensures NamesUnique(CommitList(current, pending))
  {
    AbsorbAllUnique(Unflag(current), pending);
  }

  lemma AbsorbNext(current: seq<Uniform>, pending: seq<Uniform>, n: nat)
    requires n < |pending|
    ensures AbsorbAll(current, pending[..n + 1]) == Absorb(AbsorbAll(current, pending[..n]), pending[n])
  {
    assert pending[..n + 1][..n] == pending[..n];
  }

  // ---- the list object ------------------------------------------------------

  class UniformVariableList {
    const owner: Id
    const isPending: bool
    var list: seq<Uniform>

    constructor (owner: Id, isPending: bool)
      ensures this.owner == owner && this.isPending == isPending && list == []
    {
      this.owner, this.isPending := owner, isPending;
      list := [];
    }

    method Emplace(u: Uniform)
      modifies this
      ensures list == old(list) + [u.Flagged(false)]
    {
      list := list + [u.Flagged(false)];
    }

    static method Commit(pending: UniformVariableList, current: UniformVariableList)
      requires pending != current
      modifies pending, current
      ensures pending.list == []
      ensures current.list == CommitList(old(current.list), old(pending.list))
    {
      var i := 0;
      while i < |current.list|
        invariant i <= |current.list| == |old(current.list)|
        invariant forall j :: 0 <= j < |current.list| ==>
          current.list[j] == if j < i then old(current.list)[j].Flagged(false) else old(current.list)[j]
        invariant pending.list == old(pending.list)
      {
        current.list := current.list[i := current.list[i].Flagged(false)];
        i := i + 1;
      }
      assert current.list == Unflag(old(current.list));

      ghost var n := 0;
      while pending.list != []
        invariant n <= |old(pending.list)|
        invariant pending.list == old(pending.list)[n..]
        invariant current.list == AbsorbAll(Unflag(old(current.list)), old(pending.list)[..n])
        decreases |pending.list|
      {
        var u := pending.list[0];
        AbsorbNext(Unflag(old(current.list)), old(pending.list), n);
        current.list := RemoveNamed(current.list, u.name);
        current.list := current.list + [u.Flagged(true)];
        pending.list := pending.list[1..];
        n := n + 1;
      }
      assert old(pending.list)[..n] == old(pending.list);
    }

    // Appends the calls made on the remote technique to its log.
    method Sync(log: seq<Message>, force: bool) returns (log': seq<Message>)
      ensures log' == log + Messages(list, force)
    {
      log' := log;
      var i := 0;
      while i < |list|
        invariant i <= |list|
        invariant log' == log + Messages(list[..i], force)
      {
        var u := list[i];
        assert list[..i + 1] == list[..i] + [u];
        MessagesSnoc(list[..i], u, force);
        i := i + 1;
        if !force && !u.newlyCommitted {
          continue;
        }
        if u.col == 1 {
          if u.kind != Unknown {
            log' := log' + [Message(u.location, u.name, Vector(u.kind, u.row, u.count, u.value))];
          }
        } else {
          log' := log' + [Message(u.location, u.name, Matrix(u.col, u.row, u.count, u.transpose, u.value))];
        }
      }
      assert list[..i] == list;
    }
  }
}
