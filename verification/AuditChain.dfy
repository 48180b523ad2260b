/**
 * The hash-chained audit log. Each process writes its entries one after the other; processes race for
 * the next sequence number, and a unique index lets one of them have it. The digest is a parameter.
 */
module AuditChain {
  import opened Wrappers

  /** Digest of an entry's sequence number, content and predecessor. */
  type Digest = (nat, string, string) -> string

  datatype Entry = Entry(sequence: nat, payload: string, previousHash: string, hash: string)

  const GENESIS := "GENESIS"
  const MAX_ATTEMPTS := 5

  predicate NoClash(h: Digest, a: Entry, b: Entry) {
    h(a.sequence, a.payload, a.previousHash) == h(b.sequence, b.payload, b.previousHash) ==>
      a.sequence == b.sequence && a.payload == b.payload && a.previousHash == b.previousHash
  }

  ghost predicate CollisionFree(h: Digest) {
    forall a, b :: NoClash(h, a, b)
  }

  // ---------------------------------------------------------------- find last, insert

  /** The row with the highest sequence number. */
  function FindLast(rows: seq<Entry>): (last: Option<Entry>)
    ensures last.None? <==> rows == []
    ensures last.Some? ==> last.value in rows && forall i :: 0 <= i < |rows| ==> rows[i].sequence <= last.value.sequence
  {
    if rows == [] then None
    else
      var best, row := FindLast(rows[..|rows| - 1]), rows[|rows| - 1];
      if best.Some? && best.value.sequence >= row.sequence then best else Some(row)
  }

  function NextEntry(h: Digest, last: Option<Entry>, payload: string): Entry {
    var sequence := (if last.Some? then last.value.sequence else 0) + 1;
    var previous := if last.Some? then last.value.hash else GENESIS;
    Entry(sequence, payload, previous, h(sequence, payload, previous))
  }

  /** What the two unique indexes refuse. */
  predicate Taken(rows: seq<Entry>, e: Entry) {
    exists i :: 0 <= i < |rows| && (rows[i].sequence == e.sequence || rows[i].hash == e.hash)
  }

  // ---------------------------------------------------------------- a valid chain

  function HashBefore(rows: seq<Entry>, i: nat): string
    requires i <= |rows|
  {
    if i == 0 then GENESIS else rows[i - 1].hash
  }

  /** Numbered from one without a gap, each entry naming the digest of the one before it. */
  predicate Chained(h: Digest, rows: seq<Entry>) {
    forall i :: 0 <= i < |rows| ==> Linked(h, rows, i)
  }

  predicate Linked(h: Digest, rows: seq<Entry>, i: nat)
    requires i < |rows|
  {
    && rows[i].sequence == i + 1 && rows[i].previousHash == HashBefore(rows, i)
    && rows[i].hash == h(rows[i].sequence, rows[i].payload, rows[i].previousHash)
  }

  lemma {:induction false} LastOfChain(h: Digest, rows: seq<Entry>)
    requires Chained(h, rows)
    ensures FindLast(rows) == if rows == [] then None else Some(rows[|rows| - 1])
  {
    if rows != [] {
      var n := |rows| - 1;
      forall i | 0 <= i < n ensures Linked(h, rows[..n], i) { assert Linked(h, rows, i); }
      LastOfChain(h, rows[..n]);
      assert Linked(h, rows, n);
      if n > 0 { assert Linked(h, rows, n - 1); }
    }
  }

  lemma {:induction false} ChainGrows(h: Digest, rows: seq<Entry>, payload: string)
    requires Chained(h, rows)
    ensures Chained(h, rows + [NextEntry(h, FindLast(rows), payload)])
  {
    LastOfChain(h, rows);
    var rows' := rows + [NextEntry(h, FindLast(rows), payload)];
    forall i | 0 <= i < |rows'|
      ensures Linked(h, rows', i)
    {
      if i < |rows| { assert Linked(h, rows, i); }
      if i == |rows| && i > 0 { assert Linked(h, rows, i - 1); }
    }
  }

  /**
   * With a collision-free digest the head hash fixes the whole log: two valid chains with the same head
   * hash are equal entry by entry. So no entry can be altered, dropped or inserted unnoticed.
   */
  lemma {:induction false} SameHeadSameLog(h: Digest, a: seq<Entry>, b: seq<Entry>)
    requires CollisionFree(h) && Chained(h, a) && Chained(h, b)
    requires a != [] && b != [] && a[|a| - 1].hash == b[|b| - 1].hash
    ensures a == b
  {
    var m, n := |a| - 1, |b| - 1;
    assert Linked(h, a, m) && Linked(h, b, n) && NoClash(h, a[m], b[n]);
    assert a[m] == b[n];
    if m > 0 {
      forall i | 0 <= i < m ensures Linked(h, a[..m], i) && Linked(h, b[..n], i)
      {
        assert Linked(h, a, i) && Linked(h, b, i);
      }
      SameHeadSameLog(h, a[..m], b[..n]);
      assert a == a[..m] + [a[m]] && b == b[..n] + [b[n]];
    }
  }

  // ---------------------------------------------------------------- many processes

  datatype Fate = Stored(row: nat) | Beaten(since: nat) | Errored

  /** `began` is how long the log was when the first attempt looked. */
  datatype Stage =
    | Idle
    | Finding(attempt: nat, began: Option<nat>)
    | Inserting(attempt: nat, began: Option<nat>, last: Option<Entry>)

  /** A process writes what was submitted to it in order; entry |fates| is its current one. */
  datatype Writer = Writer(submitted: seq<string>, fates: seq<Fate>, at: Stage)

  /** `authors` says which process wrote which row. */
  datatype Log = Log(rows: seq<Entry>, authors: seq<nat>, writers: seq<Writer>)

  datatype Action = Join | Submit(writer: nat, payload: string) | Run(process: nat) | Break(process: nat)

  function Start(began: Option<nat>, rows: seq<Entry>): Option<nat> {
    if began.Some? then began else Some(|rows|)
  }

  function RunWriter(h: Digest, s: Log, w: nat): Log
    requires w < |s.writers|
  {
    var k := s.writers[w];
    if |k.fates| >= |k.submitted| then s
    else match k.at
      case Idle => s.(writers := s.writers[w := k.(at := Finding(1, None))])
      case Finding(attempt, began) =>
        s.(writers := s.writers[w := k.(at := Inserting(attempt, Start(began, s.rows), FindLast(s.rows)))])
      case Inserting(attempt, began, last) =>
        var e := NextEntry(h, last, k.submitted[|k.fates|]);
        if !Taken(s.rows, e) then
          Log(s.rows + [e], s.authors + [w], s.writers[w := k.(fates := k.fates + [Stored(|s.rows|)], at := Idle)])
        else if attempt >= MAX_ATTEMPTS then
          s.(writers := s.writers[w := k.(fates := k.fates + [Beaten(if began.Some? then began.value else 0)],
                                          at := Idle)])
        else
          s.(writers := s.writers[w := k.(at := Finding(attempt + 1, began))])
  }

  function Step(h: Digest, s: Log, a: Action): Log {
    match a
    case Join => s.(writers := s.writers + [Writer([], [], Idle)])
    case Submit(w, payload) =>
      if w < |s.writers| then
        s.(writers := s.writers[w := s.writers[w].(submitted := s.writers[w].submitted + [payload])])
      else s
    case Run(w) => if w < |s.writers| then RunWriter(h, s, w) else s
    case Break(w) =>
      if w < |s.writers| && !s.writers[w].at.Idle? && |s.writers[w].fates| < |s.writers[w].submitted| then
        s.(writers := s.writers[w := s.writers[w].(fates := s.writers[w].fates + [Errored], at := Idle)])
      else s
  }

  function Steps(h: Digest, s: Log, actions: seq<Action>): Log {
    if actions == [] then s else Step(h, Steps(h, s, actions[..|actions| - 1]), actions[|actions| - 1])
  }

  // ---------------------------------------------------------------- the invariant

  /** Rows from `from` up to `to` were written by other processes. */
  predicate OthersWrote(authors: seq<nat>, w: nat, from: nat, to: nat) {
    from <= to <= |authors| && forall r :: from <= r < to ==> authors[r] != w
  }

  predicate StageOk(s: Log, w: nat, at: Stage) {
    match at
    case Idle => true
    case Finding(attempt, began) =>
      && (attempt == 1 ==> began.None?)
      && (attempt > 1 ==> began.Some? && began.value + attempt - 1 <= |s.rows|)
      && 1 <= attempt <= MAX_ATTEMPTS
      && (began.Some? ==> OthersWrote(s.authors, w, began.value, |s.rows|))
    case Inserting(attempt, began, last) =>
      && 1 <= attempt <= MAX_ATTEMPTS && began.Some?
      && (last.None? || (1 <= last.value.sequence <= |s.rows| && last.value == s.rows[last.value.sequence - 1]))
      && began.value + attempt - 1 <= Seen(last)
      && OthersWrote(s.authors, w, began.value, |s.rows|)
  }

  /** How long the log was when the attempt looked. */
  function Seen(last: Option<Entry>): nat {
    if last.Some? then last.value.sequence else 0
  }

  predicate FateOk(s: Log, w: nat, k: Writer, i: nat)
    requires i < |k.fates| <= |k.submitted|
  {
    match k.fates[i]
    case Stored(r) => r < |s.rows| == |s.authors| && s.rows[r].payload == k.submitted[i] && s.authors[r] == w
    case Beaten(began) => began + 5 <= |s.authors| && OthersWrote(s.authors, w, began, began + 5)
    case Errored => true
  }

  predicate WriterOk(s: Log, w: nat, k: Writer) {
    && |k.fates| <= |k.submitted| && StageOk(s, w, k.at)
    && (forall i :: 0 <= i < |k.fates| ==> FateOk(s, w, k, i))
    && (forall i, j :: 0 <= i < j < |k.fates| && k.fates[i].Stored? && k.fates[j].Stored? ==>
        k.fates[i].row < k.fates[j].row)
  }

  predicate HasAuthor(s: Log, r: nat)
    requires r < |s.authors|
  {
    s.authors[r] < |s.writers| && Stored(r) in s.writers[s.authors[r]].fates
  }

  predicate Inv(h: Digest, s: Log) {
    && Chained(h, s.rows) && |s.authors| == |s.rows|
    && (forall w :: 0 <= w < |s.writers| ==> WriterOk(s, w, s.writers[w]))
    && (forall r :: 0 <= r < |s.rows| ==> HasAuthor(s, r))
  }

  predicate SeenIn(rows: seq<Entry>, last: Option<Entry>) {
    last.None? || (1 <= last.value.sequence <= |rows| && last.value == rows[last.value.sequence - 1])
  }

  lemma LateIsRefused(h: Digest, rows: seq<Entry>, last: Option<Entry>, payload: string)
    requires Chained(h, rows) && SeenIn(rows, last) && Seen(last) < |rows|
    ensures Taken(rows, NextEntry(h, last, payload))
  {
    assert Linked(h, rows, Seen(last));
    assert rows[Seen(last)].sequence == NextEntry(h, last, payload).sequence;
  }

  /** A row of the chain that gets in the way of the next entry lies behind what was seen. */
  lemma ClashIsLate(h: Digest, rows: seq<Entry>, e: Entry, i: nat)
    requires CollisionFree(h) && Chained(h, rows) && i < |rows| && e.hash == h(e.sequence, e.payload, e.previousHash)
    requires rows[i].sequence == e.sequence || rows[i].hash == e.hash
    ensures e.sequence == i + 1
  {
    assert Linked(h, rows, i) && NoClash(h, rows[i], e);
  }

  lemma UpToDateIsFree(h: Digest, rows: seq<Entry>, e: Entry)
    requires CollisionFree(h) && Chained(h, rows) && e.hash == h(e.sequence, e.payload, e.previousHash)
    requires |rows| < e.sequence
    ensures !Taken(rows, e)
  {
    forall i | 0 <= i < |rows|
      ensures rows[i].sequence != e.sequence && rows[i].hash != e.hash
    {
      if rows[i].sequence == e.sequence || rows[i].hash == e.hash {
        ClashIsLate(h, rows, e, i);
      }
    }
  }

  lemma SeesLast(rows: seq<Entry>, last: Option<Entry>)
    requires SeenIn(rows, last) && Seen(last) == |rows|
    ensures last == if rows == [] then None else Some(rows[|rows| - 1])
  {
  }

  /** An insert is refused exactly when somebody has added a row since the attempt looked. */
  lemma {:induction false} RefusedIfLate(h: Digest, rows: seq<Entry>, last: Option<Entry>, payload: string)
    requires CollisionFree(h) && Chained(h, rows) && SeenIn(rows, last)
    ensures Taken(rows, NextEntry(h, last, payload)) <==> Seen(last) < |rows|
    ensures Seen(last) == |rows| ==> last == FindLast(rows)
  {
    if Seen(last) < |rows| {
      LateIsRefused(h, rows, last, payload);
    } else {
      UpToDateIsFree(h, rows, NextEntry(h, last, payload));
      SeesLast(rows, last);
      LastOfChain(h, rows);
    }
  }

  /** A writer is unaffected by rows that others append. */
  lemma WriterStays(s: Log, s': Log, w: nat, k: Writer)
    requires |s.authors| == |s.rows| && |s'.authors| == |s'.rows| && s.rows <= s'.rows && s.authors <= s'.authors
    requires WriterOk(s, w, k) && OthersWrote(s'.authors, w, |s.rows|, |s'.rows|)
    ensures WriterOk(s', w, k)
  {
    forall i | 0 <= i < |k.fates|
      ensures FateOk(s', w, k, i)
    {
      assert FateOk(s, w, k, i);
    }
  }

  lemma InsertShows(h: Digest, s: Log, w: nat)
    requires w < |s.writers|
    ensures RunWriter(h, s, w).writers[w] == s.writers[w] ==>
            RunWriter(h, s, w).rows == s.rows && RunWriter(h, s, w).authors == s.authors
  {
  }

  lemma OthersStay(h: Digest, s: Log, a: Action, w: nat)
    requires Inv(h, s) && w < |s.writers|
    requires Step(h, s, a).writers[w] == s.writers[w]
    ensures WriterOk(Step(h, s, a), w, s.writers[w])
  {
    var s' := Step(h, s, a);
    assert WriterOk(s, w, s.writers[w]);
    if a.Run? && a.process == w { InsertShows(h, s, w); }
    WriterStays(s, s', w, s.writers[w]);
  }

  lemma SubmitOk(s: Log, w: nat, k: Writer, payload: string)
    requires WriterOk(s, w, k)
    ensures WriterOk(s, w, k.(submitted := k.submitted + [payload]))
  {
    forall i | 0 <= i < |k.fates|
      ensures FateOk(s, w, k.(submitted := k.submitted + [payload]), i)
    {
      assert FateOk(s, w, k, i);
    }
  }

  /** A writer that meets the fate of its current entry. */
  lemma FateAdded(s: Log, w: nat, k: Writer, fate: Fate)
    requires WriterOk(s, w, k) && |k.fates| < |k.submitted|
    requires FateOk(s, w, k.(fates := k.fates + [fate]), |k.fates|)
    requires fate.Stored? ==> forall i :: 0 <= i < |k.fates| && k.fates[i].Stored? ==> k.fates[i].row < fate.row
    ensures WriterOk(s, w, k.(fates := k.fates + [fate], at := Idle))
  {
    var k' := k.(fates := k.fates + [fate], at := Idle);
    forall i | 0 <= i < |k'.fates|
      ensures FateOk(s, w, k', i)
    {
      if i < |k.fates| { assert FateOk(s, w, k, i); }
    }
  }

  /** A writer that moves to another stage keeps its fates. */
  lemma Restaged(s: Log, s': Log, w: nat, k: Writer, at: Stage)
    requires |s.authors| == |s.rows| && |s'.authors| == |s'.rows| && s.rows <= s'.rows && s.authors <= s'.authors
    requires WriterOk(s, w, k) && StageOk(s', w, at)
    ensures WriterOk(s', w, k.(at := at))
  {
    forall i | 0 <= i < |k.fates|
      ensures FateOk(s', w, k.(at := at), i)
    {
      assert FateOk(s, w, k, i);
    }
  }

  lemma InsertOk(h: Digest, s: Log, w: nat)
    requires CollisionFree(h) && Inv(h, s) && w < |s.writers| && s.writers[w].at.Inserting?
    requires |s.writers[w].fates| < |s.writers[w].submitted|
    ensures var s' := RunWriter(h, s, w); Chained(h, s'.rows) && WriterOk(s', w, s'.writers[w])
  {
    var s', k := RunWriter(h, s, w), s.writers[w];
    assert WriterOk(s, w, k);
    var payload := k.submitted[|k.fates|];
    RefusedIfLate(h, s.rows, k.at.last, payload);
    if !Taken(s.rows, NextEntry(h, k.at.last, payload)) {
      ChainGrows(h, s.rows, payload);
      var idle := k.(at := Idle);
      Restaged(s, s', w, k, Idle);
      forall i | 0 <= i < |k.fates| && k.fates[i].Stored?
        ensures k.fates[i].row < |s.rows|
      {
        assert FateOk(s, w, k, i);
      }
      FateAdded(s', w, idle, Stored(|s.rows|));
    } else if k.at.attempt >= MAX_ATTEMPTS {
      FateAdded(s, w, k, Beaten(k.at.began.value));
      Restaged(s, s', w, s'.writers[w], Idle);
    } else {
      Restaged(s, s', w, k, s'.writers[w].at);
    }
  }

  lemma FindOk(h: Digest, s: Log, w: nat)
    requires Inv(h, s) && w < |s.writers| && !s.writers[w].at.Inserting?
    ensures var s' := RunWriter(h, s, w); s'.rows == s.rows && s'.authors == s.authors && WriterOk(s', w, s'.writers[w])
  {
    var s', k := RunWriter(h, s, w), s.writers[w];
    assert WriterOk(s, w, k);
    LastOfChain(h, s.rows);
    if s.rows != [] { assert Linked(h, s.rows, |s.rows| - 1); }
    Restaged(s, s', w, k, s'.writers[w].at);
  }

  lemma WritersKept(h: Digest, s: Log, a: Action, w: nat)
    requires CollisionFree(h) && Inv(h, s) && w < |Step(h, s, a).writers|
    ensures WriterOk(Step(h, s, a), w, Step(h, s, a).writers[w])
  {
    var s' := Step(h, s, a);
    if w < |s.writers| {
      assert WriterOk(s, w, s.writers[w]);
      if s'.writers[w] == s.writers[w] {
        OthersStay(h, s, a, w);
      } else {
        match a
        case Submit(_, payload) => SubmitOk(s, w, s.writers[w], payload); WriterStays(s, s', w, s'.writers[w]);
        case Run(_) => if s.writers[w].at.Inserting? { InsertOk(h, s, w); } else { FindOk(h, s, w); }
        case Break(_) => FateAdded(s, w, s.writers[w], Errored); WriterStays(s, s', w, s'.writers[w]);
        case Join =>
      }
    }
  }

  lemma AuthorsKept(h: Digest, s: Log, a: Action, r: nat)
    requires Inv(h, s) && r < |Step(h, s, a).rows|
    ensures |Step(h, s, a).authors| == |Step(h, s, a).rows| && HasAuthor(Step(h, s, a), r)
  {
    var s' := Step(h, s, a);
    if r < |s.rows| {
      assert HasAuthor(s, r);
      var w := s.authors[r];
      assert s.writers[w].fates <= s'.writers[w].fates;
    } else {
      var fates := s'.writers[a.process].fates;
      assert fates[|fates| - 1] == Stored(r);
    }
  }

  lemma {:induction false} RunKeepsInv(h: Digest, s: Log, actions: seq<Action>)
    requires CollisionFree(h) && s == Log([], [], [])
    ensures Inv(h, Steps(h, s, actions))
  {
    if actions != [] {
      var n := |actions| - 1;
      var before, a := Steps(h, s, actions[..n]), actions[n];
      var after := Step(h, before, a);
      RunKeepsInv(h, s, actions[..n]);
      forall w | 0 <= w < |after.writers| ensures WriterOk(after, w, after.writers[w]) { WritersKept(h, before, a, w); }
      forall r | 0 <= r < |after.rows| ensures HasAuthor(after, r) { AuthorsKept(h, before, a, r); }
      if a.Run? && a.process < |before.writers| && before.writers[a.process].at.Inserting?
         && |before.writers[a.process].fates| < |before.writers[a.process].submitted| {
        InsertOk(h, before, a.process);
      }
    }
  }

  /**
   * However many processes append at once, the log has no gap and every entry names its predecessor;
   * each process's entries are stored once each and in the order submitted; every row is some process's
   * submitted entry; and an entry is given up only after other processes added five rows meanwhile.
   */
  lemma {:induction false} LogStaysChained(h: Digest, actions: seq<Action>)
    requires CollisionFree(h)
    ensures var s := Steps(h, Log([], [], []), actions);
            && Chained(h, s.rows) && |s.authors| == |s.rows|
            && (forall w :: 0 <= w < |s.writers| ==> WriterOk(s, w, s.writers[w]))
            && (forall r :: 0 <= r < |s.rows| ==> HasAuthor(s, r))
  {
    RunKeepsInv(h, Log([], [], []), actions);
  }

  // ---------------------------------------------------------------- the retry loop

  function Extended(h: Digest, rows: seq<Entry>, payloads: seq<string>): seq<Entry> {
    if payloads == [] then rows
    else
      var before := Extended(h, rows, payloads[..|payloads| - 1]);
      before + [NextEntry(h, FindLast(before), payloads[|payloads| - 1])]
  }

  lemma {:induction false} ExtendedGrows(h: Digest, rows: seq<Entry>, payloads: seq<string>)
    requires Chained(h, rows)
    ensures Chained(h, Extended(h, rows, payloads)) && |Extended(h, rows, payloads)| == |rows| + |payloads|
    ensures rows <= Extended(h, rows, payloads)
  {
    if payloads != [] {
      ExtendedGrows(h, rows, payloads[..|payloads| - 1]);
      ChainGrows(h, Extended(h, rows, payloads[..|payloads| - 1]), payloads[|payloads| - 1]);
    }
  }

  lemma {:induction false} ExtendedJoin(h: Digest, rows: seq<Entry>, xs: seq<string>, ys: seq<string>)
    ensures Extended(h, Extended(h, rows, xs), ys) == Extended(h, rows, xs + ys)
  {
    if ys == [] {
      assert xs + ys == xs;
    } else {
      assert (xs + ys)[..|xs + ys| - 1] == xs + ys[..|ys| - 1];
      ExtendedJoin(h, rows, xs, ys[..|ys| - 1]);
    }
  }

  class AuditCollection {
    var rows: seq<Entry>

    /** Other processes add their entries between two calls of this one. */
    method Others(h: Digest, payloads: seq<string>)
      modifies this
      ensures rows == Extended(h, old(rows), payloads)
    {
      var i := 0;
      assert payloads[..0] == [];
      while i < |payloads|
        invariant 0 <= i <= |payloads| && rows == Extended(h, old(rows), payloads[..i])
      {
        assert payloads[..i + 1][..i] == payloads[..i];
        rows := rows + [NextEntry(h, FindLast(rows), payloads[i])];
        i := i + 1;
      }
      assert payloads[..|payloads|] == payloads;
    }

    method Create(e: Entry) returns (duplicate: bool)
      modifies this
      ensures duplicate == Taken(old(rows), e)
      ensures rows == if duplicate then old(rows) else old(rows) + [e]
    {
      duplicate := Taken(rows, e);
      if !duplicate { rows := rows + [e]; }
    }
  }

  /** Everything others add up to and including attempt number `n`. */
  function Meanwhile(rivals: seq<seq<string>>, n: nat): seq<string>
    requires n <= |rivals|
  {
    if n == 0 then [] else Meanwhile(rivals, n - 1) + rivals[n - 1]
  }

  /** One attempt: look, let others add theirs, insert. It fails exactly when somebody was in time. */
  method AppendAuditEntry(h: Digest, log: AuditCollection, payload: string, rival: seq<string>)
    returns (duplicate: bool)
    requires CollisionFree(h) && Chained(h, log.rows)
    modifies log
    ensures Chained(h, log.rows) && (duplicate <==> rival != [])
    ensures log.rows == Extended(h, old(log.rows), if rival == [] then [payload] else rival)
  {
    var last := FindLast(log.rows);
    ghost var seen := log.rows;
    LastOfChain(h, seen);
    if seen != [] { assert Linked(h, seen, |seen| - 1); }
    log.Others(h, rival);
    ExtendedGrows(h, seen, rival);
    RefusedIfLate(h, log.rows, last, payload);
    ChainGrows(h, seen, payload);
    assert [payload][..0] == [];
    duplicate := log.Create(NextEntry(h, last, payload));
  }

  /** Others were in time in each of the first `n` attempts. */
  predicate AllLate(rivals: seq<seq<string>>, n: nat)
    requires n <= |rivals|
  {
    n == 0 || (AllLate(rivals, n - 1) && rivals[n - 1] != [])
  }

  /** After so many failed attempts, and the last one if it went through, the log holds this much more. */
  predicate Grown(h: Digest, before: seq<Entry>, rows: seq<Entry>, payload: string, rivals: seq<seq<string>>,
                  retries: nat, stored: bool) {
    && retries <= |rivals| && AllLate(rivals, retries)
    && (stored ==> retries < |rivals| && rivals[retries] == [])
    && rows == Extended(h, before, if stored then Meanwhile(rivals, retries) + [payload]
                                   else Meanwhile(rivals, retries))
  }

  lemma {:induction false} AttemptFails(h: Digest, before: seq<Entry>, rows: seq<Entry>, rows': seq<Entry>,
                                        payload: string, rivals: seq<seq<string>>, n: nat)
    requires Grown(h, before, rows, payload, rivals, n, false) && n < |rivals| && rivals[n] != []
    requires rows' == Extended(h, rows, rivals[n])
    ensures Grown(h, before, rows', payload, rivals, n + 1, false)
  {
    ExtendedJoin(h, before, Meanwhile(rivals, n), rivals[n]);
  }

  lemma {:induction false} AttemptSucceeds(h: Digest, before: seq<Entry>, rows: seq<Entry>, rows': seq<Entry>,
                                           payload: string, rivals: seq<seq<string>>, n: nat)
    requires Grown(h, before, rows, payload, rivals, n, false) && n < |rivals| && rivals[n] == []
    requires rows' == Extended(h, rows, [payload])
    ensures Grown(h, before, rows', payload, rivals, n, true)
  {
    ExtendedJoin(h, before, Meanwhile(rivals, n), [payload]);
  }

  lemma NothingGrown(h: Digest, rows: seq<Entry>, payload: string, rivals: seq<seq<string>>)
    ensures Grown(h, rows, rows, payload, rivals, 0, false)
  {
  }

  /**
   * `rivals[n]` is what others add between the look and the insert of attempt n + 1. The entry is dropped
   * exactly when they are in time in all five attempts; otherwise it goes in right behind what they had
   * added by the first attempt they missed.
   */
  method WriteTamperProofAudit(h: Digest, log: AuditCollection, payload: string, rivals: seq<seq<string>>)
    returns (stored: bool, retries: nat)
    requires CollisionFree(h) && Chained(h, log.rows) && |rivals| == 5
    modifies log
    ensures Chained(h, log.rows) && retries <= 5
    ensures stored <==> retries < 5
    ensures Grown(h, old(log.rows), log.rows, payload, rivals, retries, stored)
  {
    retries := 0;
    ghost var before := log.rows;
    NothingGrown(h, before, payload, rivals);
    while retries < MAX_ATTEMPTS
      invariant 0 <= retries <= MAX_ATTEMPTS && Chained(h, log.rows)
      invariant Grown(h, before, log.rows, payload, rivals, retries, false)
    {
      ghost var rows := log.rows;
      var duplicate := AppendAuditEntry(h, log, payload, rivals[retries]);
      if !duplicate {
        assert Grown(h, before, log.rows, payload, rivals, retries, true) by {
          AttemptSucceeds(h, before, rows, log.rows, payload, rivals, retries);
        }
        return true, retries;
      }
      assert Grown(h, before, log.rows, payload, rivals, retries + 1, false) by {
        AttemptFails(h, before, rows, log.rows, payload, rivals, retries);
      }
      retries := retries + 1;
    }
    return false, retries;
  }
}
