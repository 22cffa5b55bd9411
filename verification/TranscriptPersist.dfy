/** A call's transcript as stored message rows: the live feed writes the latest row as the
    call goes, finalize writes them all, and either may be repeated or cut short. */
module TranscriptPersist {
  import opened Options
  import opened Text

  datatype Role = User | Assistant
  datatype Turn = Turn(role: Role, content: string, atMs: Option<int>, commitSource: Option<string>, refusal: Option<string>)
  datatype Target = Target(workspaceId: string, campaignId: string, contactId: string, enrollmentId: Option<string>,
                           callId: string, callSid: string, startedAt: int)

  datatype Direction = Inbound | Outbound
  datatype Meta = Meta(callId: string, turnIndex: nat, composed: bool, commitSource: Option<string>, refusal: Option<string>)
  datatype Row = Row(workspaceId: string, campaignId: string, contactId: string, enrollmentId: Option<string>,
                     direction: Direction, body: string, key: string, sentAt: int, meta: Meta)

  type Store = map<string, Row>

  // ---- Rows of a transcript ------------------------------------------------------------

  /** The unique key of a call's row. */
  function Key(callSid: string, index: nat): string { "voice:" + (callSid + (":" + Decimal(index))) }

  function Worded(turns: seq<Turn>): seq<Turn> {
    if turns == [] then [] else
    Worded(turns[..|turns| - 1]) + (if Trim(turns[|turns| - 1].content) != "" then [turns[|turns| - 1]] else [])
  }

  function RowOf(t: Turn, index: nat, target: Target): Row {
    Row(target.workspaceId, target.campaignId, target.contactId, target.enrollmentId,
        if t.role.User? then Inbound else Outbound, t.content, Key(target.callSid, index),
        target.startedAt + (if t.atMs.Some? then t.atMs.value else index * 1000),
        Meta(target.callId, index, t.role.Assistant?, t.commitSource, t.refusal))
  }

  function RowsFrom(turns: seq<Turn>, target: Target): seq<Row> {
    var worded := Worded(turns);
    seq(|worded|, i requires 0 <= i < |worded| => RowOf(worded[i], i, target))
  }

  // ---- Writes --------------------------------------------------------------------------

  /** createMany with skipDuplicates. */
  function Insert(db: Store, rows: seq<Row>): Store {
    if rows == [] then db else
    var before, row := Insert(db, rows[..|rows| - 1]), rows[|rows| - 1];
    if row.key in before then before else before[row.key := row]
  }

  /** How many rows that inserts. */
  function Inserted(db: Store, rows: seq<Row>): nat {
    if rows == [] then 0 else
    var front := rows[..|rows| - 1];
    Inserted(db, front) + (if rows[|rows| - 1].key in Insert(db, front) then 0 else 1)
  }

  /** updateMany for one row: only a stored row with another body changes. */
  function AmendOne(db: Store, row: Row): Store {
    if row.key in db && db[row.key].body != row.body then db[row.key := db[row.key].(body := row.body)] else db
  }

  function Amend(db: Store, rows: seq<Row>): Store {
    if rows == [] then db else AmendOne(Amend(db, rows[..|rows| - 1]), rows[|rows| - 1])
  }

  function Finalize(db: Store, rows: seq<Row>): Store {
    if Inserted(db, rows) < |rows| then Amend(Insert(db, rows), rows) else Insert(db, rows)
  }

  function Live(db: Store, rows: seq<Row>): Store {
    if rows == [] then db else
    var last := rows[|rows| - 1];
    if last.key in db then db[last.key := db[last.key].(body := last.body)] else db[last.key := last]
  }

  class MessageStore {
    var messages: Store

    constructor ()
      ensures messages == map[]
    {
      messages := map[];
    }

    /** The store's bulk insert. */
    method CreateMany(rows: seq<Row>) returns (count: nat)
      modifies this
      ensures messages == Insert(old(messages), rows) && count == Inserted(old(messages), rows)
    {
      count := 0;
      for i := 0 to |rows|
        invariant messages == Insert(old(messages), rows[..i]) && count == Inserted(old(messages), rows[..i])
      {
        assert rows[..i + 1][..i] == rows[..i];
        if rows[i].key !in messages {
          messages := messages[rows[i].key := rows[i]];
          count := count + 1;
        }
      }
      assert rows[..|rows|] == rows;
    }

    method PersistTranscript(turns: seq<Turn>, target: Target) returns (n: nat)
      modifies this
      ensures messages == Finalize(old(messages), RowsFrom(turns, target)) && n == |RowsFrom(turns, target)|
    {
      var rows := RowsFrom(turns, target);
      if |rows| == 0 { return 0; }
      var count := CreateMany(rows);
      if count < |rows| {
        ghost var created := messages;
        for i := 0 to |rows|
          invariant messages == Amend(created, rows[..i])
        {
          assert rows[..i + 1][..i] == rows[..i];
          if rows[i].key in messages && messages[rows[i].key].body != rows[i].body {
            messages := messages[rows[i].key := messages[rows[i].key].(body := rows[i].body)];
          }
        }
        assert rows[..|rows|] == rows;
      }
      n := |rows|;
    }

    method PersistLatestTurn(turns: seq<Turn>, target: Target)
      modifies this
      ensures messages == Live(old(messages), RowsFrom(turns, target))
    {
      var rows := RowsFrom(turns, target);
      if |rows| == 0 { return; }
      var last := rows[|rows| - 1];
      if last.key in messages {
        messages := messages[last.key := messages[last.key].(body := last.body)];
      } else {
        messages := messages[last.key := last];
      }
    }
  }

  // ---- Keys ----------------------------------------------------------------------------

  /** Rows of different calls, and different rows of one call, never share a key, whatever
      characters the call ids hold. */
  lemma KeyInjective(a: string, i: nat, b: string, j: nat)
    requires Key(a, i) == Key(b, j)
    ensures a == b && i == j
  {
    KeyTail(a, i);
    KeyTail(b, j);
    var x, y := Decimal(i), Decimal(j);
    LastPartUnique(("voice:" + a) + ":", x, ("voice:" + b) + ":", y, ':');
    assert a == (("voice:" + a) + ":")[6..][..|a|] && b == (("voice:" + b) + ":")[6..][..|b|];
    assert |(("voice:" + a) + ":")| == |a| + 7 && |(("voice:" + b) + ":")| == |b| + 7;
    DecimalInjective(i, j);
  }

  lemma KeyTail(a: string, i: nat)
    ensures Key(a, i) == (("voice:" + a) + ":") + Decimal(i) && ':' !in Decimal(i)
  {}

  ghost predicate OfCall(callSid: string, k: string) { exists i: nat :: k == Key(callSid, i) }

  predicate Indexed(rows: seq<Row>, callSid: string) { forall i :: 0 <= i < |rows| ==> rows[i].key == Key(callSid, i) }

  // ---- What the writes leave -----------------------------------------------------------

  function At(db: Store, k: string): Option<Row> { if k in db then Some(db[k]) else None }

  function Find(rows: seq<Row>, k: string): Option<Row> {
    if rows == [] then None
    else if rows[|rows| - 1].key == k then Some(rows[|rows| - 1])
    else Find(rows[..|rows| - 1], k)
  }

  function WithBody(stored: Row, from: Option<Row>): Row { if from.Some? then stored.(body := from.value.body) else stored }

  lemma {:induction false} FindIndexed(rows: seq<Row>, callSid: string, i: nat)
    requires Indexed(rows, callSid)
    ensures Find(rows, Key(callSid, i)) == if i < |rows| then Some(rows[i]) else None
  {
    if rows != [] {
      if rows[|rows| - 1].key == Key(callSid, i) {
        KeyInjective(callSid, |rows| - 1, callSid, i);
      } else {
        FindIndexed(rows[..|rows| - 1], callSid, i);
      }
    }
  }

  lemma {:induction false} FindInCall(rows: seq<Row>, callSid: string, k: string)
    requires Indexed(rows, callSid) && Find(rows, k).Some?
    ensures exists i: nat :: i < |rows| && k == Key(callSid, i) && Find(rows, k) == Some(rows[i])
  {
    if rows[|rows| - 1].key != k {
      FindInCall(rows[..|rows| - 1], callSid, k);
    }
  }

  lemma {:induction false} InsertAt(db: Store, rows: seq<Row>, callSid: string, k: string)
    requires Indexed(rows, callSid)
    ensures At(Insert(db, rows), k) == if k in db then Some(db[k]) else Find(rows, k)
  {
    if rows != [] {
      var front := rows[..|rows| - 1];
      InsertAt(db, front, callSid, k);
      if k == rows[|rows| - 1].key {
        FindIndexed(front, callSid, |front|);
      }
    }
  }

  lemma {:induction false} InsertedAll(db: Store, rows: seq<Row>, callSid: string)
    requires Indexed(rows, callSid)
    ensures Inserted(db, rows) <= |rows|
    ensures Inserted(db, rows) == |rows| <==> forall i :: 0 <= i < |rows| ==> rows[i].key !in db
  {
    if rows != [] {
      var front := rows[..|rows| - 1];
      InsertedAll(db, front, callSid);
      InsertAt(db, front, callSid, rows[|rows| - 1].key);
      FindIndexed(front, callSid, |front|);
      assert forall i :: 0 <= i < |front| ==> front[i] == rows[i];
    }
  }

  lemma {:induction false} AmendAt(db: Store, rows: seq<Row>, k: string)
    ensures At(Amend(db, rows), k) == if k in db then Some(WithBody(db[k], Find(rows, k))) else None
  {
    if rows != [] {
      AmendAt(db, rows[..|rows| - 1], k);
    }
  }

  /** Finalize, key by key: a row already stored keeps everything but its body, which becomes
      the transcript's; a missing one is created; no other changes. */
  lemma FinalizeAt(db: Store, rows: seq<Row>, callSid: string, k: string)
    requires Indexed(rows, callSid)
    ensures At(Finalize(db, rows), k) == if k in db then Some(WithBody(db[k], Find(rows, k))) else Find(rows, k)
  {
    InsertAt(db, rows, callSid, k);
    AmendAt(Insert(db, rows), rows, k);
    InsertedAll(db, rows, callSid);
    if Inserted(db, rows) == |rows| && k in db && Find(rows, k).Some? {
      FindInCall(rows, callSid, k);
    }
  }

  lemma SameStore(a: Store, b: Store)
    requires forall k :: At(a, k) == At(b, k)
    ensures a == b
  {
    forall k
      ensures k in a <==> k in b
      ensures k in a && k in b ==> a[k] == b[k]
    {
      assert At(a, k) == At(b, k);
    }
  }

  // ---- Convergence ---------------------------------------------------------------------

  /** The base with exactly these rows in it. */
  function Stored(base: Store, rows: seq<Row>): Store {
    if rows == [] then base else
    var last := rows[|rows| - 1];
    Stored(base, rows[..|rows| - 1])[last.key := last]
  }

  lemma {:induction false} StoredAt(base: Store, rows: seq<Row>, k: string)
    ensures At(Stored(base, rows), k) == if Find(rows, k).Some? then Find(rows, k) else At(base, k)
  {
    if rows != [] {
      StoredAt(base, rows[..|rows| - 1], k);
    }
  }

  /** At k, db is the base, or holds the row but for its body. */
  predicate AgreesAt(db: Store, base: Store, rows: seq<Row>, k: string) {
    match Find(rows, k)
    case None => At(db, k) == At(base, k)
    case Some(row) => k in db ==> db[k].(body := row.body) == row
  }

  ghost predicate OffBody(db: Store, base: Store, rows: seq<Row>) { forall k :: AgreesAt(db, base, rows, k) }

  /** Finalize stores exactly the transcript's rows if and only if what was there before
      differs from them at most by bodies and by rows still missing. */
  lemma FinalizeExactIff(db: Store, base: Store, rows: seq<Row>, callSid: string)
    requires Indexed(rows, callSid)
    ensures Finalize(db, rows) == Stored(base, rows) <==> OffBody(db, base, rows)
  {
    forall k
      ensures At(Finalize(db, rows), k) == At(Stored(base, rows), k) <==> AgreesAt(db, base, rows, k)
    {
      FinalizeAt(db, rows, callSid, k);
      StoredAt(base, rows, k);
    }
    if OffBody(db, base, rows) {
      SameStore(Finalize(db, rows), Stored(base, rows));
    }
  }

  // ---- A growing transcript --------------------------------------------------------------

  /** u continues t: turns are appended, and the text of the turn that was last is extended. */
  predicate Grows(t: seq<Turn>, u: seq<Turn>) {
    t == [] || var n := |t| - 1;
    |t| <= |u| && t[..n] == u[..n] && t[n].content <= u[n].content && u[n] == t[n].(content := u[n].content)
  }

  lemma GrowsOn(t: seq<Turn>, u: seq<Turn>, v: seq<Turn>)
    requires Grows(t, u) && Grows(u, v)
    ensures Grows(t, v)
  {}

  lemma PushGrows(t: seq<Turn>, turn: Turn)
    ensures Grows(t, t + [turn])
  {}

  lemma {:induction false} WordedPrefix(u: seq<Turn>, n: nat)
    requires n <= |u|
    ensures Worded(u[..n]) <= Worded(u)
  {
    if n < |u| {
      WordedPrefix(u[..|u| - 1], n);
      assert u[..|u| - 1][..n] == u[..n];
    } else {
      assert u[..n] == u;
    }
  }

  lemma StillWorded(a: string, b: string)
    requires a <= b && Trim(a) != ""
    ensures Trim(b) != ""
  {
    BlankIffTrimsAway(a);
    BlankIffTrimsAway(b);
    var c :| c in a && !IsSpace(c);
    assert c in b;
  }

  predicate SameOffBody(a: Row, b: Row) { a.(body := b.body) == b }

  predicate RowsAgree(a: seq<Row>, b: seq<Row>) { |a| <= |b| && forall i :: 0 <= i < |a| ==> SameOffBody(a[i], b[i]) }

  lemma RowsGrow(t: seq<Turn>, u: seq<Turn>, target: Target)
    requires Grows(t, u)
    ensures RowsAgree(RowsFrom(t, target), RowsFrom(u, target))
  {
    if t != [] {
      var n := |t| - 1;
      WordedPrefix(u, n + 1);
      assert u[..n + 1][..n] == u[..n] && u[..n + 1][n] == u[n];
      if Trim(t[n].content) != "" {
        StillWorded(t[n].content, u[n].content);
      }
    }
  }

  lemma RowsIndexed(turns: seq<Turn>, target: Target)
    ensures Indexed(RowsFrom(turns, target), target.callSid)
  {}

  // ---- Runs of writes --------------------------------------------------------------------

  /** Writes of a snapshot: the latest row, all rows, or all rows with a crash between the
      insert and the update of bodies. */
  datatype Write = LatestOf(turns: seq<Turn>) | AllOf(turns: seq<Turn>) | CutOf(turns: seq<Turn>)

  function Perform(db: Store, w: Write, target: Target): Store {
    var rows := RowsFrom(w.turns, target);
    match w
    case LatestOf(_) => Live(db, rows)
    case AllOf(_) => Finalize(db, rows)
    case CutOf(_) => Insert(db, rows)
  }

  function PerformAll(db: Store, writes: seq<Write>, target: Target): Store {
    if writes == [] then db else Perform(PerformAll(db, writes[..|writes| - 1], target), writes[|writes| - 1], target)
  }

  lemma EarlierRow(rows: seq<Row>, final: seq<Row>, callSid: string, k: string)
    requires Indexed(rows, callSid) && Indexed(final, callSid) && RowsAgree(rows, final)
    ensures Find(rows, k).Some? ==> Find(final, k).Some? && SameOffBody(Find(rows, k).value, Find(final, k).value)
  {
    if Find(rows, k).Some? {
      FindInCall(rows, callSid, k);
      var i: nat :| i < |rows| && k == Key(callSid, i) && Find(rows, k) == Some(rows[i]);
      FindIndexed(final, callSid, i);
    }
  }

  lemma LiveAt(db: Store, rows: seq<Row>, k: string)
    ensures At(Live(db, rows), k)
            == if rows != [] && k == rows[|rows| - 1].key
               then Some(WithBody(if k in db then db[k] else rows[|rows| - 1], Find(rows, k)))
               else At(db, k)
  {}

  lemma WriteAgrees(db: Store, base: Store, w: Write, final: seq<Turn>, target: Target)
    requires Grows(w.turns, final) && OffBody(db, base, RowsFrom(final, target))
    ensures OffBody(Perform(db, w, target), base, RowsFrom(final, target))
  {
    var rows, last := RowsFrom(w.turns, target), RowsFrom(final, target);
    RowsGrow(w.turns, final, target);
    RowsIndexed(w.turns, target);
    RowsIndexed(final, target);
    forall k
      ensures AgreesAt(Perform(db, w, target), base, last, k)
    {
      assert AgreesAt(db, base, last, k);
      EarlierRow(rows, last, target.callSid, k);
      LiveAt(db, rows, k);
      FinalizeAt(db, rows, target.callSid, k);
      InsertAt(db, rows, target.callSid, k);
    }
  }

  lemma {:induction false} WritesAgree(db: Store, base: Store, writes: seq<Write>, final: seq<Turn>, target: Target)
    requires forall w :: w in writes ==> Grows(w.turns, final)
    requires OffBody(db, base, RowsFrom(final, target))
    ensures OffBody(PerformAll(db, writes, target), base, RowsFrom(final, target))
  {
    if writes != [] {
      WritesAgree(db, base, writes[..|writes| - 1], final, target);
      WriteAgrees(PerformAll(db, writes[..|writes| - 1], target), base, writes[|writes| - 1], final, target);
    }
  }

  /** The store has no row of this call. */
  ghost predicate Unstarted(base: Store, callSid: string) { forall k :: k in base ==> !OfCall(callSid, k) }

  /** Any writes of snapshots that grew into the final transcript - live, complete, cut short,
      repeated, skipped or out of order - then one finalize, store exactly its rows and leave
      every other row alone. */
  lemma FinalizeConverges(base: Store, writes: seq<Write>, final: seq<Turn>, target: Target)
    requires Unstarted(base, target.callSid) && forall w :: w in writes ==> Grows(w.turns, final)
    ensures Finalize(PerformAll(base, writes, target), RowsFrom(final, target)) == Stored(base, RowsFrom(final, target))
  {
    var rows := RowsFrom(final, target);
    RowsIndexed(final, target);
    forall k
      ensures AgreesAt(base, base, rows, k)
    {
      if Find(rows, k).Some? {
        FindInCall(rows, target.callSid, k);
        assert OfCall(target.callSid, k);
      }
    }
    WritesAgree(base, base, writes, final, target);
    FinalizeExactIff(PerformAll(base, writes, target), base, rows, target.callSid);
  }

  /** After that nothing a repeated finalize or a late live write of the final transcript
      does changes the store. */
  lemma SettledStays(base: Store, final: seq<Turn>, target: Target, w: Write)
    requires w.turns == final
    ensures var db := Stored(base, RowsFrom(final, target)); Perform(db, w, target) == db
  {
    var rows := RowsFrom(final, target);
    var db := Stored(base, rows);
    RowsIndexed(final, target);
    forall k
      ensures At(Perform(db, w, target), k) == At(db, k)
    {
      StoredAt(base, rows, k);
      LiveAt(db, rows, k);
      FinalizeAt(db, rows, target.callSid, k);
      InsertAt(db, rows, target.callSid, k);
    }
    SameStore(Perform(db, w, target), db);
  }

  /** Writes for one call never touch the rows of another. */
  lemma OtherCallsUntouched(db: Store, w: Write, target: Target, other: string, i: nat)
    requires other != target.callSid
    ensures At(Perform(db, w, target), Key(other, i)) == At(db, Key(other, i))
  {
    var rows, k := RowsFrom(w.turns, target), Key(other, i);
    RowsIndexed(w.turns, target);
    if Find(rows, k).Some? {
      FindInCall(rows, target.callSid, k);
      var j: nat :| j < |rows| && k == Key(target.callSid, j);
      KeyInjective(other, i, target.callSid, j);
    }
    LiveAt(db, rows, k);
    FinalizeAt(db, rows, target.callSid, k);
    InsertAt(db, rows, target.callSid, k);
  }

  /** The rows of the transcript are the whole of what is stored for the call. */
  lemma StoredIsExact(base: Store, final: seq<Turn>, target: Target, i: nat)
    requires Unstarted(base, target.callSid)
    ensures var rows := RowsFrom(final, target);
            At(Stored(base, rows), Key(target.callSid, i)) == if i < |rows| then Some(rows[i]) else None
  {
    var rows, k := RowsFrom(final, target), Key(target.callSid, i);
    RowsIndexed(final, target);
    FindIndexed(rows, target.callSid, i);
    StoredAt(base, rows, k);
    assert OfCall(target.callSid, k);
  }

  // ---- What the rows say of the call -----------------------------------------------------

  /** Something was said: not white space only. */
  predicate Audible(t: Turn) { exists c :: c in t.content && !IsSpace(c) }

  /** How many turns said something. */
  function Audibles(turns: seq<Turn>): nat {
    if turns == [] then 0 else Audibles(turns[..|turns| - 1]) + (if Audible(turns[|turns| - 1]) then 1 else 0)
  }

  /** The row records this turn as the one at the given place of the call. */
  predicate Records(row: Row, t: Turn, place: nat, target: Target) {
    && row.body == t.content
    && (row.direction.Inbound? <==> t.role.User?)
    && row.key == "voice:" + target.callSid + ":" + Decimal(place)
    && row.sentAt - target.startedAt == (match t.atMs case Some(ms) => ms case None => place * 1000)
    && row.workspaceId == target.workspaceId && row.campaignId == target.campaignId
    && row.contactId == target.contactId && row.enrollmentId == target.enrollmentId
    && row.meta.callId == target.callId && row.meta.turnIndex == place
    && (row.meta.composed <==> t.role.Assistant?)
    && row.meta.commitSource == t.commitSource && row.meta.refusal == t.refusal
  }

  /** A turn's row is at the place given by the turns that said something before it. */
  predicate RowAt(rows: seq<Row>, turns: seq<Turn>, n: nat, target: Target)
    requires n < |turns|
  {
    var place := Audibles(turns[..n]);
    place < |rows| && Records(rows[place], turns[n], place, target)
  }

  /** The turn said something, after so many others that did. */
  predicate HasPlace(turns: seq<Turn>, n: nat, i: nat) {
    n < |turns| && Audible(turns[n]) && Audibles(turns[..n]) == i
  }

  lemma AudibleIffWorded(t: Turn)
    ensures Audible(t) <==> Trim(t.content) != ""
  {
    BlankIffTrimsAway(t.content);
  }

  lemma {:induction false} WordedAt(turns: seq<Turn>, n: nat)
    requires n < |turns|
    ensures |Worded(turns)| == Audibles(turns)
    ensures Audible(turns[n]) ==> Audibles(turns[..n]) < |Worded(turns)| && Worded(turns)[Audibles(turns[..n])] == turns[n]
  {
    var front := turns[..|turns| - 1];
    AudibleIffWorded(turns[|turns| - 1]);
    if n < |front| {
      WordedAt(front, n);
      assert front[..n] == turns[..n];
    } else if front != [] {
      WordedAt(front, 0);
    }
  }

  lemma {:induction false} PlaceIsTaken(turns: seq<Turn>, i: nat)
    requires i < Audibles(turns)
    ensures exists n: nat :: HasPlace(turns, n, i)
  {
    var front := turns[..|turns| - 1];
    if i < Audibles(front) {
      PlaceIsTaken(front, i);
      var n: nat :| HasPlace(front, n, i);
      assert front[..n] == turns[..n];
      assert HasPlace(turns, n, i);
    } else {
      assert HasPlace(turns, |front|, i);
    }
  }

  /** The rows are the turns in which something was said, each once and in order, whoever
      spoke, with the turn's own words, time and provenance. */
  lemma RowsAreTurns(turns: seq<Turn>, target: Target)
    ensures var rows := RowsFrom(turns, target);
            && |rows| == Audibles(turns)
            && (forall n :: 0 <= n < |turns| && Audible(turns[n]) ==> RowAt(rows, turns, n, target))
            && (forall i :: 0 <= i < |rows| ==>
                  exists n: nat :: HasPlace(turns, n, i) && Records(rows[i], turns[n], i, target))
  {
    var rows := RowsFrom(turns, target);
    if turns != [] {
      WordedAt(turns, 0);
    }
    forall n | 0 <= n < |turns| && Audible(turns[n])
      ensures RowAt(rows, turns, n, target)
    {
      WordedAt(turns, n);
      KeySpelled(target.callSid, Audibles(turns[..n]));
    }
    forall i: nat | i < |rows|
      ensures exists n: nat :: HasPlace(turns, n, i) && Records(rows[i], turns[n], i, target)
    {
      PlaceIsTaken(turns, i);
      var n: nat :| HasPlace(turns, n, i);
      assert RowAt(rows, turns, n, target);
    }
  }

  lemma KeySpelled(callSid: string, place: nat)
    ensures Key(callSid, place) == "voice:" + callSid + ":" + Decimal(place)
  {}

  /** What the store holds for a call after any writes on the way and a finalize: for each turn
      that said something its row, at its place, and nothing else. */
  lemma CallIsStored(base: Store, writes: seq<Write>, final: seq<Turn>, target: Target)
    requires Unstarted(base, target.callSid) && forall w :: w in writes ==> Grows(w.turns, final)
    ensures var db := Finalize(PerformAll(base, writes, target), RowsFrom(final, target));
            && (forall n :: 0 <= n < |final| && Audible(final[n]) ==>
                  var place := Audibles(final[..n]);
                  Key(target.callSid, place) in db && Records(db[Key(target.callSid, place)], final[n], place, target))
            && (forall i: nat :: i >= Audibles(final) ==> Key(target.callSid, i) !in db)
  {
    var rows := RowsFrom(final, target);
    var db := Finalize(PerformAll(base, writes, target), rows);
    FinalizeConverges(base, writes, final, target);
    RowsAreTurns(final, target);
    forall i: nat
      ensures At(db, Key(target.callSid, i)) == if i < |rows| then Some(rows[i]) else None
    {
      StoredIsExact(base, final, target, i);
    }
    forall n | 0 <= n < |final| && Audible(final[n])
      ensures var place := Audibles(final[..n]);
              Key(target.callSid, place) in db && Records(db[Key(target.callSid, place)], final[n], place, target)
    {
      assert RowAt(rows, final, n, target);
      assert At(db, Key(target.callSid, Audibles(final[..n]))).Some?;
    }
    forall i: nat | i >= Audibles(final)
      ensures Key(target.callSid, i) !in db
    {
      assert At(db, Key(target.callSid, i)).None?;
    }
  }

  lemma {:induction false} QuietTail(turns: seq<Turn>, n: nat)
    requires n < |turns| && Audible(turns[n]) && forall m :: n < m < |turns| ==> !Audible(turns[m])
    ensures Audibles(turns) == Audibles(turns[..n]) + 1
  {
    var front := turns[..|turns| - 1];
    if n < |front| {
      QuietTail(front, n);
      assert front[..n] == turns[..n];
    }
  }

  /** A live write brings the store up to date with the last turn that said something, also
      when its row is there with older words, and touches no other row. */
  lemma LatestIsStored(db: Store, turns: seq<Turn>, target: Target, n: nat)
    requires n < |turns| && Audible(turns[n]) && forall m :: n < m < |turns| ==> !Audible(turns[m])
    ensures var place := Audibles(turns[..n]);
            var k, after := Key(target.callSid, place), Live(db, RowsFrom(turns, target));
            && k in after
            && (if k in db then after[k] == db[k].(body := turns[n].content) else Records(after[k], turns[n], place, target))
            && forall other :: other != k ==> At(after, other) == At(db, other)
  {
    RowsAreTurns(turns, target);
    QuietTail(turns, n);
    assert RowAt(RowsFrom(turns, target), turns, n, target);
    KeySpelled(target.callSid, Audibles(turns[..n]));
  }
}
