/** The manager's tables, one at a time: how each follows a change of one
    session. */
module BridgeFrames {
  import opened Lists
  import opened Lanes
  import opened BridgeState
  import opened BridgeSteps
  import opened BridgeInvariant

  // ----- lists and marks -----

  lemma MarkAppend(list: seq<nat>, marks: seq<bool>, s: nat)
    requires Mirrors(list, marks) && s < |marks| && !marks[s]
    ensures Mirrors(list + [s], marks[s := true])
  {
    AppendNoDup(list, s);
  }

  lemma MarkRemove(list: seq<nat>, marks: seq<bool>, s: nat)
    requires Mirrors(list, marks) && s < |marks|
    ensures Mirrors(Remove(list, s), marks[s := false])
  {
    RemoveSpec(list, s);
  }

  lemma MarkPop(list: seq<nat>, marks: seq<bool>)
    requires Mirrors(list, marks) && list != []
    ensures list[0] < |marks| && marks[list[0]]
    ensures Mirrors(list[1..], marks[list[0] := false])
  {
    assert list[0] in list;
    TailNoDup(list);
  }

  lemma MarkNew(list: seq<nat>, marks: seq<bool>)
    requires Mirrors(list, marks)
    ensures Mirrors(list, marks + [false])
  {
  }

  /** A new element at the end of one of two lists that share their marks. */
  lemma MarkInsert(front: seq<nat>, back: seq<nat>, marks: seq<bool>, s: nat)
    requires Mirrors(front + back, marks) && s < |marks| && !marks[s]
    ensures Mirrors(front + [s] + back, marks[s := true])
  {
    var list, list' := front + back, front + [s] + back;
    assert s !in list;
    assert forall t :: t in list' <==> t in list || t == s;
    InsertNoDup(front, back, s);
  }

  lemma InsertNoDup(front: seq<nat>, back: seq<nat>, s: nat)
    requires NoDup(front + back) && s !in front + back
    ensures NoDup(front + [s] + back)
  {
    var list, list' := front + back, front + [s] + back;
    forall i, j | 0 <= i < j < |list'| ensures list'[i] != list'[j] {
      var i', j' := if i < |front| then i else i - 1, if j < |front| then j else j - 1;
      if i == |front| {
        assert list'[j] == list[j'];
      } else if j == |front| {
        assert list'[i] == list[i'];
      } else {
        assert list'[i] == list[i'] && list'[j] == list[j'];
      }
    }
  }

  /** The first element of the second of two lists goes. */
  lemma MarkDrop(front: seq<nat>, back: seq<nat>, marks: seq<bool>)
    requires Mirrors(front + back, marks) && back != []
    ensures back[0] < |marks| && marks[back[0]]
    ensures Mirrors(front + back[1..], marks[back[0] := false])
  {
    DropNoDup(front, back);
    assert (front + back)[|front|] == back[0];
    assert back[0] in front + back;
  }

  lemma DropNoDup(front: seq<nat>, back: seq<nat>)
    requires NoDup(front + back) && back != []
    ensures NoDup(front + back[1..])
    ensures forall u :: u in front + back[1..] <==> u in front + back && u != back[0]
  {
    var list, list' := front + back, front + back[1..];
    assert list[|front|] == back[0];
    assert forall i :: 0 <= i < |list'| ==> list'[i] == list[if i < |front| then i else i + 1];
    forall u | u in list && u != back[0] ensures u in list' {
      var i :| 0 <= i < |list| && list[i] == u;
      assert list'[if i < |front| then i else i - 1] == u;
    }
    forall u | u in list' ensures u in list && u != back[0] {
      var i :| 0 <= i < |list'| && list'[i] == u;
      assert list[if i < |front| then i else i + 1] == u;
    }
  }

  lemma MarksUpdate(sessions: seq<Session>, s: nat, x: Session)
    requires s < |sessions|
    ensures ReadyMarks(sessions[s := x]) == ReadyMarks(sessions)[s := x.core.readyQueued]
    ensures WaitMarks(sessions[s := x]) == WaitMarks(sessions)[s := x.waitQueued]
    ensures RetiredMarks(sessions[s := x]) == RetiredMarks(sessions)[s := x.core.retired && !x.core.freed]
    ensures BoundMarks(sessions[s := x]) == BoundMarks(sessions)[s := x.core.bound]
    ensures StopMarks(sessions[s := x]) == StopMarks(sessions)[s := x.core.stopping]
    ensures Names(sessions[s := x]) == Names(sessions)[s := x.name]
  {
  }

  lemma MarksAt(sessions: seq<Session>, s: nat)
    requires s < |sessions|
    ensures |ReadyMarks(sessions)| == |sessions| && ReadyMarks(sessions)[s] == sessions[s].core.readyQueued
    ensures |WaitMarks(sessions)| == |sessions| && WaitMarks(sessions)[s] == sessions[s].waitQueued
    ensures |RetiredMarks(sessions)| == |sessions| && RetiredMarks(sessions)[s] == (sessions[s].core.retired && !sessions[s].core.freed)
    ensures |BoundMarks(sessions)| == |sessions| && BoundMarks(sessions)[s] == sessions[s].core.bound
    ensures |StopMarks(sessions)| == |sessions| && StopMarks(sessions)[s] == sessions[s].core.stopping
    ensures |Names(sessions)| == |sessions| && Names(sessions)[s] == sessions[s].name
  {
  }

  lemma MarksKept(sessions: seq<Session>, s: nat, x: Session)
    requires s < |sessions|
    ensures x.core.readyQueued == sessions[s].core.readyQueued ==> ReadyMarks(sessions[s := x]) == ReadyMarks(sessions)
    ensures x.waitQueued == sessions[s].waitQueued ==> WaitMarks(sessions[s := x]) == WaitMarks(sessions)
    ensures x.core.retired == sessions[s].core.retired && x.core.freed == sessions[s].core.freed ==>
              RetiredMarks(sessions[s := x]) == RetiredMarks(sessions)
    ensures x.core.bound == sessions[s].core.bound ==> BoundMarks(sessions[s := x]) == BoundMarks(sessions)
    ensures x.core.stopping == sessions[s].core.stopping ==> StopMarks(sessions[s := x]) == StopMarks(sessions)
    ensures x.name == sessions[s].name ==> Names(sessions[s := x]) == Names(sessions)
  {
  }

  lemma {:induction false} HeldCountUpdate(sessions: seq<Session>, s: nat, x: Session)
    requires s < |sessions|
    ensures HeldCount(sessions[s := x]) == HeldCount(sessions) - Holding(sessions[s]) + Holding(x)
  {
    var last := |sessions| - 1;
    if s == last {
      assert sessions[s := x][..last] == sessions[..last];
    } else {
      HeldCountUpdate(sessions[..last], s, x);
      assert sessions[s := x][..last] == sessions[..last][s := x];
    }
  }

  // ----- all tables -----

  lemma TablesParts(st: State)
    requires TablesInv(st)
    ensures Mirrors(st.ready, ReadyMarks(st.sessions)) && Mirrors(st.waiters, WaitMarks(st.sessions))
    ensures Mirrors(Unfreed(st), RetiredMarks(st.sessions))
    ensures BudgetInv(st.bufferBytes, HeldCount(st.sessions))
    ensures RegistryInv(st.registry, BoundMarks(st.sessions), Names(st.sessions))
  {
    hide Mirrors, BudgetInv, RegistryInv, Unfreed, HeldCount;
  }

  lemma TablesOf(st: State)
    requires Mirrors(st.ready, ReadyMarks(st.sessions)) && Mirrors(st.waiters, WaitMarks(st.sessions))
    requires Mirrors(Unfreed(st), RetiredMarks(st.sessions))
    requires BudgetInv(st.bufferBytes, HeldCount(st.sessions))
    requires RegistryInv(st.registry, BoundMarks(st.sessions), Names(st.sessions))
    ensures TablesInv(st)
  {
    hide Mirrors, BudgetInv, RegistryInv, Unfreed, HeldCount;
  }

  /** The fields of a session that no table but the ready queue depends on. */
  predicate SameLinks(x: Session, x': Session) {
    && x'.waitQueued == x.waitQueued
    && x'.core.retired == x.core.retired && x'.core.freed == x.core.freed
    && x'.core.bound == x.core.bound && x'.name == x.name
    && x'.toBackend.held == x.toBackend.held && x'.toPublic.held == x.toPublic.held
  }

  lemma SameHolding(x: Session, x': Session)
    requires SameLinks(x, x')
    ensures Holding(x') == Holding(x) && x'.waitQueued == x.waitQueued && x'.name == x.name
    ensures x'.core.retired == x.core.retired && x'.core.freed == x.core.freed && x'.core.bound == x.core.bound
  {
  }

  predicate SameLists(st: State, st': State) {
    && st'.waiters == st.waiters && st'.registry == st.registry
    && st'.bufferBytes == st.bufferBytes && Unfreed(st') == Unfreed(st)
  }

  lemma SameListsParts(st: State, st': State)
    requires SameLists(st, st')
    ensures st'.waiters == st.waiters && st'.registry == st.registry && st'.bufferBytes == st.bufferBytes
    ensures Unfreed(st') == Unfreed(st)
  {
  }

  /** A change of one session that at most queues it. */
  lemma FrameTables(st: State, st': State, s: nat, x: Session)
    requires TablesInv(st) && SameLists(st, st') && s < |st.sessions| && st'.sessions == st.sessions[s := x]
    requires SameLinks(st.sessions[s], x) && Mirrors(st'.ready, ReadyMarks(st'.sessions))
    ensures TablesInv(st')
  {
    hide *;
    TablesParts(st);
    SameListsParts(st, st');
    SameHolding(st.sessions[s], x);
    MarksKept(st.sessions, s, x);
    HeldCountUpdate(st.sessions, s, x);
    TablesOf(st');
  }

  lemma ReadyKept(st: State, s: nat, x: Session)
    requires TablesInv(st) && s < |st.sessions| && x.core.readyQueued == st.sessions[s].core.readyQueued
    ensures Mirrors(st.ready, ReadyMarks(st.sessions[s := x]))
  {
    hide *;
    TablesParts(st);
    MarksKept(st.sessions, s, x);
  }

  /** What queueing does to the ready queue. */
  function Enqueued(ready: seq<nat>, s: nat, queued: bool): seq<nat> {
    if queued then ready else ready + [s]
  }

  lemma ReadyAdded(st: State, s: nat, x: Session)
    requires TablesInv(st) && s < |st.sessions| && x.core.readyQueued
    ensures Mirrors(Enqueued(st.ready, s, st.sessions[s].core.readyQueued), ReadyMarks(st.sessions[s := x]))
  {
    hide Mirrors, TablesInv;
    TablesParts(st);
    MarksAt(st.sessions, s);
    MarksUpdate(st.sessions, s, x);
    if st.sessions[s].core.readyQueued {
      MarksKept(st.sessions, s, x);
    } else {
      MarkAppend(st.ready, ReadyMarks(st.sessions), s);
    }
  }

  /** QueueAdd, in terms of one session and one list. */
  lemma QueueAddIs(st: State, s: nat)
    requires s < |st.sessions| && st.sessions[s].core.inUse
    ensures var x := st.sessions[s];
            QueueAdd(st, s) == st.(sessions := st.sessions[s := x.(core := x.core.(readyQueued := true))],
                                   ready := Enqueued(st.ready, s, x.core.readyQueued))
  {
    var x := st.sessions[s];
    if x.core.readyQueued {
      QueuedSame(x);
      UpdateSame(st.sessions, s);
    }
  }

  lemma QueuedSame(x: Session)
    requires x.core.readyQueued
    ensures x.(core := x.core.(readyQueued := true)) == x
  {
  }

  lemma UpdateSame<T>(xs: seq<T>, i: nat)
    requires i < |xs|
    ensures xs[i := xs[i]] == xs
  {
  }

  lemma UpdateTwice<T>(xs: seq<T>, i: nat, a: T, b: T)
    requires i < |xs|
    ensures xs[i := a][i := b] == xs[i := b]
  {
  }

  // ----- the buffer budget -----

  lemma {:induction false} HeldAtLeast(sessions: seq<Session>, s: nat)
    requires s < |sessions|
    ensures Holding(sessions[s]) <= HeldCount(sessions)
  {
    if s < |sessions| - 1 {
      HeldAtLeast(sessions[..|sessions| - 1], s);
    }
  }

  /** A held buffer is accounted for. */
  lemma BudgetCovers(st: State, s: nat)
    requires TablesInv(st) && s < |st.sessions|
    ensures st.bufferBytes >= BUFFER_LIMIT * Holding(st.sessions[s])
    ensures st.bufferBytes + BUFFER_LIMIT > TOTAL_BUFFER_LIMIT ==> st.bufferBytes == TOTAL_BUFFER_LIMIT
  {
    hide Mirrors, RegistryInv;
    HeldAtLeast(st.sessions, s);
  }

  predicate SameLinksButHeld(x: Session, x': Session) {
    && x'.waitQueued == x.waitQueued && x'.core.readyQueued == x.core.readyQueued
    && x'.core.retired == x.core.retired && x'.core.freed == x.core.freed
    && x'.core.bound == x.core.bound && x'.name == x.name
  }

  predicate SameListsButBudget(st: State, st': State) {
    st'.ready == st.ready && st'.waiters == st.waiters && st'.registry == st.registry && Unfreed(st') == Unfreed(st)
  }

  lemma BudgetFollows(st: State, s: nat, x: Session, bytes: nat)
    requires TablesInv(st) && s < |st.sessions|
    requires bytes == st.bufferBytes + BUFFER_LIMIT * (Holding(x) - Holding(st.sessions[s])) && bytes <= TOTAL_BUFFER_LIMIT
    ensures BudgetInv(bytes, HeldCount(st.sessions[s := x]))
  {
    hide Mirrors, RegistryInv, Holding;
    HeldCountUpdate(st.sessions, s, x);
  }

  lemma FrameBudget(st: State, st': State, s: nat, x: Session)
    requires TablesInv(st) && s < |st.sessions| && st'.sessions == st.sessions[s := x]
    requires SameLinksButHeld(st.sessions[s], x) && SameListsButBudget(st, st')
    requires st'.bufferBytes == st.bufferBytes + BUFFER_LIMIT * (Holding(x) - Holding(st.sessions[s]))
    requires st'.bufferBytes <= TOTAL_BUFFER_LIMIT
    ensures TablesInv(st')
  {
    hide Mirrors, RegistryInv, Holding, TablesInv, BudgetInv, HeldCount, Unfreed;
    TablesParts(st);
    MarksKept(st.sessions, s, x);
    BudgetFollows(st, s, x, st'.bufferBytes);
    TablesOf(st');
  }
}
