/** The hash chain of the audit log on values: what verification accepts, and what it
    cannot miss. `sha` stands for SHA-256 over the canonical JSON of an entry; nothing is
    assumed about it, so the tamper results name the collision an attacker would need. */
module AuditChain {
  import opened Prelude

  datatype Json =
    | Null
    | Bool(b: bool)
    | Number(n: real)
    | Text(s: string)
    | Array(items: seq<Json>)
    | Object(fields: map<string, Json>)

  type Fields = map<string, Json>
  type Sha = Fields -> string

  const GENESIS_HASH := "0000000000000000000000000000000000000000000000000000000000000000"

  /** One physical line of the log file, as the JSON reader sees it. */
  datatype Line = Blank | Malformed | NotAnObject | Record(fields: Fields)

  datatype Verdict = Valid | Broken(line: nat) | Crashed(line: nat)

  // ---- Records ----

  function Body(r: Fields): Fields {
    r - {"hash"}
  }

  /** The stored hash is the digest of the rest of the record. */
  predicate Sealed(sha: Sha, r: Fields) {
    "hash" in r && r["hash"] == Text(sha(Body(r)))
  }

  predicate Follows(r: Fields, prev: string) {
    "prev" in r && r["prev"] == Text(prev)
  }

  /** The entry that an append writes after `prev`. */
  function Entry(ts: real, event: string, payload: Json, prev: Json): Fields {
    map["ts" := Number(ts), "event" := Text(event), "payload" := payload, "prev" := prev]
  }

  function Seal(sha: Sha, entry: Fields): Fields {
    entry["hash" := Text(sha(entry))]
  }

  // ---- Verification ----

  /** Verification of the lines from `i` on, when the hash before them is `prev`. */
  function CheckFrom(sha: Sha, lines: seq<Line>, i: nat, prev: string): Verdict
    requires i <= |lines|
    decreases |lines| - i
  {
    if i == |lines| then Valid
    else match lines[i]
      case Blank => CheckFrom(sha, lines, i + 1, prev)
      case Malformed => Crashed(i + 1)
      case NotAnObject => Crashed(i + 1)
      case Record(r) =>
        if Follows(r, prev) && Sealed(sha, r) then CheckFrom(sha, lines, i + 1, sha(Body(r)))
        else Broken(i + 1)
  }

  function Check(sha: Sha, lines: seq<Line>): Verdict {
    CheckFrom(sha, lines, 0, GENESIS_HASH)
  }

  // ---- What a valid log is ----

  function Records(lines: seq<Line>): seq<Fields> {
    if lines == [] then []
    else Records(lines[..|lines| - 1]) + if lines[|lines| - 1].Record? then [lines[|lines| - 1].fields] else []
  }

  predicate Readable(lines: seq<Line>) {
    forall i :: 0 <= i < |lines| ==> lines[i].Blank? || lines[i].Record?
  }

  function HashBefore(sha: Sha, rs: seq<Fields>, i: nat): string
    requires i <= |rs|
  {
    if i == 0 then GENESIS_HASH else sha(Body(rs[i - 1]))
  }

  predicate Linked(sha: Sha, rs: seq<Fields>, i: nat)
    requires i < |rs|
  {
    Sealed(sha, rs[i]) && Follows(rs[i], HashBefore(sha, rs, i))
  }

  /** Every record is sealed and points at the one before it. */
  predicate Chain(sha: Sha, rs: seq<Fields>) {
    forall i :: 0 <= i < |rs| ==> Linked(sha, rs, i)
  }

  function LastHash(sha: Sha, rs: seq<Fields>): string {
    HashBefore(sha, rs, |rs|)
  }

  lemma RecordsStep(lines: seq<Line>, i: nat)
    requires i < |lines|
    ensures Records(lines[..i + 1]) ==
            if lines[i].Record? then Records(lines[..i]) + [lines[i].fields] else Records(lines[..i])
  {
    assert lines[..i + 1][..i] == lines[..i];
  }

  lemma ChainExtends(sha: Sha, rs: seq<Fields>, r: Fields)
    ensures Chain(sha, rs + [r]) <==> Chain(sha, rs) && Sealed(sha, r) && Follows(r, LastHash(sha, rs))
  {
    var all := rs + [r];
    assert forall i :: 0 <= i < |rs| ==> (Linked(sha, all, i) <==> Linked(sha, rs, i));
    assert Linked(sha, all, |rs|) <==> Sealed(sha, r) && Follows(r, LastHash(sha, rs));
    if Chain(sha, all) {
      assert forall i :: 0 <= i < |rs| ==> Linked(sha, all, i);
      assert Linked(sha, all, |rs|);
    }
  }

  /** Where the chain of a file first fails, if it does. */
  ghost predicate Explains(sha: Sha, lines: seq<Line>, v: Verdict) {
    match v
    case Valid => Readable(lines) && Chain(sha, Records(lines))
    case Broken(n) =>
      && 1 <= n <= |lines| && lines[n - 1].Record?
      && Readable(lines[..n - 1]) && Chain(sha, Records(lines[..n - 1])) && !Chain(sha, Records(lines[..n]))
    case Crashed(n) =>
      && 1 <= n <= |lines| && (lines[n - 1].Malformed? || lines[n - 1].NotAnObject?)
      && Readable(lines[..n - 1]) && Chain(sha, Records(lines[..n - 1]))
  }

  lemma {:induction false} CheckFromExplains(sha: Sha, lines: seq<Line>, i: nat)
    requires i <= |lines| && Readable(lines[..i]) && Chain(sha, Records(lines[..i]))
    ensures Explains(sha, lines, CheckFrom(sha, lines, i, LastHash(sha, Records(lines[..i]))))
    decreases |lines| - i
  {
    if i == |lines| {
      assert lines[..i] == lines;
    } else {
      RecordsStep(lines, i);
      if lines[i].Record? {
        ChainExtends(sha, Records(lines[..i]), lines[i].fields);
      }
      if lines[i].Blank? || (lines[i].Record? && Chain(sha, Records(lines[..i + 1]))) {
        CheckFromExplains(sha, lines, i + 1);
      }
    }
  }

  /** Verification accepts exactly the readable files whose records form a chain, and
      otherwise reports the first line that fails. */
  lemma CheckExplains(sha: Sha, lines: seq<Line>)
    ensures Explains(sha, lines, Check(sha, lines))
    ensures Check(sha, lines).Valid? <==> Readable(lines) && Chain(sha, Records(lines))
  {
    CheckFromExplains(sha, lines, 0);
    var v := Check(sha, lines);
    if !v.Valid? && Readable(lines) && Chain(sha, Records(lines)) {
      ChainPrefix(sha, lines, v.line);
      assert false;
    }
  }

  /** Cutting lines off the end of an accepted file leaves an accepted file: truncation goes
      unnoticed. */
  lemma {:induction false} ChainPrefix(sha: Sha, lines: seq<Line>, n: nat)
    requires n <= |lines| && Readable(lines) && Chain(sha, Records(lines))
    ensures Readable(lines[..n]) && Chain(sha, Records(lines[..n]))
    decreases |lines| - n
  {
    if n == |lines| {
      assert lines[..n] == lines;
    } else {
      ChainPrefix(sha, lines, n + 1);
      RecordsStep(lines, n);
      if lines[n].Record? {
        ChainExtends(sha, Records(lines[..n]), lines[n].fields);
      }
    }
  }

  // ---- Reopening ----

  /** The hash an append continues from after scanning the file; `None` if the scan fails. */
  function ScanFrom(lines: seq<Line>, i: nat, last: Json): Option<Json>
    requires i <= |lines|
    decreases |lines| - i
  {
    if i == |lines| then Some(last)
    else match lines[i]
      case Blank => ScanFrom(lines, i + 1, last)
      case Malformed => ScanFrom(lines, i + 1, last)
      case NotAnObject => None
      case Record(r) => ScanFrom(lines, i + 1, if "hash" in r then r["hash"] else last)
  }

  function Scan(lines: seq<Line>): Option<Json> {
    ScanFrom(lines, 0, Text(GENESIS_HASH))
  }

  lemma {:induction false} ScanFromFinds(sha: Sha, lines: seq<Line>, i: nat)
    requires i <= |lines| && Readable(lines) && Chain(sha, Records(lines))
    ensures ScanFrom(lines, i, Text(LastHash(sha, Records(lines[..i])))) == Some(Text(LastHash(sha, Records(lines))))
    decreases |lines| - i
  {
    if i == |lines| {
      assert lines[..i] == lines;
    } else {
      RecordsStep(lines, i);
      ChainPrefix(sha, lines, i + 1);
      if lines[i].Record? {
        ChainExtends(sha, Records(lines[..i]), lines[i].fields);
      }
      ScanFromFinds(sha, lines, i + 1);
    }
  }

  /** Scanning an accepted file finds the hash of its last record. */
  lemma ScanFindsLastHash(sha: Sha, lines: seq<Line>)
    requires Check(sha, lines).Valid?
    ensures Scan(lines) == Some(Text(LastHash(sha, Records(lines))))
  {
    CheckExplains(sha, lines);
    ScanFromFinds(sha, lines, 0);
  }

  /** Parsing a written record and dropping its hash gives back the entry that was hashed. */
  lemma SealedEntry(sha: Sha, ts: real, event: string, payload: Json, prev: string)
    ensures var r := Seal(sha, Entry(ts, event, payload, Text(prev)));
            Body(r) == Entry(ts, event, payload, Text(prev)) && Sealed(sha, r) && Follows(r, prev)
  {
    var e := Entry(ts, event, payload, Text(prev));
    assert Body(Seal(sha, e)) == e;
  }

  // ---- Histories of one writer ----

  datatype Op = Append(ts: real, event: string, payload: Json) | Reopen

  /** The file and the hash the writer holds in memory. */
  datatype Log = Log(lines: seq<Line>, last: Json)

  function Perform(sha: Sha, log: Log, op: Op): Log {
    match op
    case Append(ts, event, payload) =>
      var e := Entry(ts, event, payload, log.last);
      Log(log.lines + [Record(Seal(sha, e))], Text(sha(e)))
    case Reopen =>
      var s := Scan(log.lines);
      if s.Some? then log.(last := s.value) else log
  }

  function PerformAll(sha: Sha, ops: seq<Op>): Log {
    if ops == [] then Log([], Text(GENESIS_HASH)) else Perform(sha, PerformAll(sha, ops[..|ops| - 1]), ops[|ops| - 1])
  }

  lemma AppendKeepsValid(sha: Sha, log: Log, ts: real, event: string, payload: Json)
    requires Check(sha, log.lines).Valid? && log.last == Text(LastHash(sha, Records(log.lines)))
    ensures var log' := Perform(sha, log, Append(ts, event, payload));
            Check(sha, log'.lines).Valid? && log'.last == Text(LastHash(sha, Records(log'.lines)))
  {
    var prev := LastHash(sha, Records(log.lines));
    var r := Seal(sha, Entry(ts, event, payload, Text(prev)));
    var lines' := log.lines + [Record(r)];
    CheckExplains(sha, log.lines);
    CheckExplains(sha, lines');
    SealedEntry(sha, ts, event, payload, prev);
    assert lines'[..|log.lines|] == log.lines && lines'[..|lines'|] == lines';
    RecordsStep(lines', |log.lines|);
    ChainExtends(sha, Records(log.lines), r);
  }

  /** From an empty file, any sequence of appends and reopenings keeps the log valid, and
      the writer always continues from the last record. */
  lemma {:induction false} HistoryStaysValid(sha: Sha, ops: seq<Op>)
    ensures var log := PerformAll(sha, ops);
            Check(sha, log.lines).Valid? && log.last == Text(LastHash(sha, Records(log.lines)))
  {
    if ops != [] {
      var init, op := ops[..|ops| - 1], ops[|ops| - 1];
      HistoryStaysValid(sha, init);
      if op.Append? {
        AppendKeepsValid(sha, PerformAll(sha, init), op.ts, op.event, op.payload);
      } else {
        ScanFindsLastHash(sha, PerformAll(sha, init).lines);
      }
    }
  }

  // ---- What is written ----

  /** What the caller of an append hands over. */
  datatype Event = Event(ts: real, name: string, payload: Json)

  /** The record holds the event, next to its link and its hash and nothing else. */
  predicate Holds(r: Fields, e: Event) {
    && r.Keys == {"ts", "event", "payload", "prev", "hash"}
    && r["ts"] == Number(e.ts) && r["event"] == Text(e.name) && r["payload"] == e.payload
  }

  lemma SealedHolds(sha: Sha, ts: real, event: string, payload: Json, prev: Json)
    ensures var r := Seal(sha, Entry(ts, event, payload, prev));
            Holds(r, Event(ts, event, payload)) && r["prev"] == prev && r["hash"] == Text(sha(r - {"hash"}))
  {
    var e := Entry(ts, event, payload, prev);
    assert |"ts"| == 2 && |"event"| == 5 && |"payload"| == 7 && |"prev"| == 4 && |"hash"| == 4 && "prev"[0] != "hash"[0];
    assert Seal(sha, e) - {"hash"} == e;
  }

  /** An append adds one record with the event, the previous hash and its own, and remembers that hash. */
  lemma AppendWrites(sha: Sha, log: Log, ts: real, event: string, payload: Json)
    ensures var log', n := Perform(sha, log, Append(ts, event, payload)), |log.lines|;
            && |log'.lines| == n + 1 && log'.lines[..n] == log.lines && log'.lines[n].Record?
            && (var r := log'.lines[n].fields;
                && Holds(r, Event(ts, event, payload)) && r["prev"] == log.last
                && r["hash"] == Text(sha(r - {"hash"})) && log'.last == r["hash"])
  {
    SealedHolds(sha, ts, event, payload, log.last);
    assert Seal(sha, Entry(ts, event, payload, log.last)) - {"hash"} == Entry(ts, event, payload, log.last);
  }

  function Appended(ops: seq<Op>): seq<Event> {
    if ops == [] then []
    else
      var op := ops[|ops| - 1];
      Appended(ops[..|ops| - 1]) + if op.Append? then [Event(op.ts, op.event, op.payload)] else []
  }

  /** From an empty file, the records of the log are exactly the appended events, in order. */
  lemma {:induction false} RecordsAreAppends(sha: Sha, ops: seq<Op>)
    ensures var records, events := Records(PerformAll(sha, ops).lines), Appended(ops);
            |records| == |events| && forall i :: 0 <= i < |events| ==> Holds(records[i], events[i])
  {
    if ops != [] {
      var init, op := ops[..|ops| - 1], ops[|ops| - 1];
      RecordsAreAppends(sha, init);
      if op.Append? {
        var log := PerformAll(sha, init);
        AppendWrites(sha, log, op.ts, op.event, op.payload);
        var lines' := PerformAll(sha, ops).lines;
        assert lines'[..|lines'|] == lines';
        RecordsStep(lines', |log.lines|);
      }
    }
  }

  /** A failure is never repaired or moved by anything written after it. */
  lemma {:induction false} FailureIsPermanent(sha: Sha, lines: seq<Line>, more: seq<Line>, i: nat, prev: string)
    requires i <= |lines| && !CheckFrom(sha, lines, i, prev).Valid?
    ensures CheckFrom(sha, lines + more, i, prev) == CheckFrom(sha, lines, i, prev)
    decreases |lines| - i
  {
    assert (lines + more)[i] == lines[i];
    if lines[i].Blank? {
      FailureIsPermanent(sha, lines, more, i + 1, prev);
    } else if lines[i].Record? && Follows(lines[i].fields, prev) && Sealed(sha, lines[i].fields) {
      FailureIsPermanent(sha, lines, more, i + 1, sha(Body(lines[i].fields)));
    }
  }

  // ---- Tamper evidence ----

  /** Two different entries among the two logs with the same digest. */
  ghost predicate Collision(sha: Sha, rs: seq<Fields>, rs': seq<Fields>) {
    exists i, j :: 0 <= i < |rs| && 0 <= j < |rs'| && Body(rs[i]) != Body(rs'[j]) && sha(Body(rs[i])) == sha(Body(rs'[j]))
  }

  /** An entry whose digest is the genesis value. */
  ghost predicate GenesisPreimage(sha: Sha, rs: seq<Fields>) {
    exists i :: 0 <= i < |rs| && sha(Body(rs[i])) == GENESIS_HASH
  }

  lemma SameBodySameRecord(sha: Sha, r: Fields, r': Fields)
    requires Sealed(sha, r) && Sealed(sha, r') && Body(r) == Body(r')
    ensures r == r'
  {
    assert r == Body(r)["hash" := r["hash"]];
    assert r' == Body(r')["hash" := r'["hash"]];
  }

  /** Two accepted logs with the same final hash are equal record by record, unless they
      exhibit a collision or an entry that hashes to the genesis value. */
  lemma {:induction false} SameEndSameLog(sha: Sha, rs: seq<Fields>, rs': seq<Fields>)
    requires Chain(sha, rs) && Chain(sha, rs') && LastHash(sha, rs) == LastHash(sha, rs')
    ensures rs == rs' || Collision(sha, rs, rs') || GenesisPreimage(sha, rs) || GenesisPreimage(sha, rs')
  {
    if rs == [] || rs' == [] {
      if rs != [] { assert sha(Body(rs[|rs| - 1])) == GENESIS_HASH; }
      if rs' != [] { assert sha(Body(rs'[|rs'| - 1])) == GENESIS_HASH; }
    } else {
      var n, m := |rs| - 1, |rs'| - 1;
      if Body(rs[n]) == Body(rs'[m]) {
        assert rs == rs[..n] + [rs[n]] && rs' == rs'[..m] + [rs'[m]];
        ChainExtends(sha, rs[..n], rs[n]);
        ChainExtends(sha, rs'[..m], rs'[m]);
        SameBodySameRecord(sha, rs[n], rs'[m]);
        SameEndSameLog(sha, rs[..n], rs'[..m]);
        SmallerEvidence(sha, rs, rs', n, m);
      }
    }
  }

  lemma SmallerEvidence(sha: Sha, rs: seq<Fields>, rs': seq<Fields>, n: nat, m: nat)
    requires n <= |rs| && m <= |rs'|
    ensures Collision(sha, rs[..n], rs'[..m]) ==> Collision(sha, rs, rs')
    ensures GenesisPreimage(sha, rs[..n]) ==> GenesisPreimage(sha, rs)
    ensures GenesisPreimage(sha, rs'[..m]) ==> GenesisPreimage(sha, rs')
  {
    if Collision(sha, rs[..n], rs'[..m]) {
      var i, j :| 0 <= i < n && 0 <= j < m && Body(rs[..n][i]) != Body(rs'[..m][j])
        && sha(Body(rs[..n][i])) == sha(Body(rs'[..m][j]));
      assert Body(rs[i]) != Body(rs'[j]);
    }
    if GenesisPreimage(sha, rs[..n]) {
      var i :| 0 <= i < n && sha(Body(rs[..n][i])) == GENESIS_HASH;
      assert sha(Body(rs[i])) == GENESIS_HASH;
    }
    if GenesisPreimage(sha, rs'[..m]) {
      var i :| 0 <= i < m && sha(Body(rs'[..m][i])) == GENESIS_HASH;
      assert sha(Body(rs'[i])) == GENESIS_HASH;
    }
  }

  predicate Injective(sha: Sha, a: Fields, b: Fields) {
    sha(a) == sha(b) ==> a == b
  }

  /** The position of the next record after line `i`, or the end of the file. */
  function NextRecord(lines: seq<Line>, i: nat): (j: nat)
    requires i <= |lines|
    ensures i <= j <= |lines| && (j < |lines| ==> !lines[j].Blank?)
    ensures forall k :: i <= k < j ==> lines[k].Blank?
    decreases |lines| - i
  {
    if i < |lines| && lines[i].Blank? then NextRecord(lines, i + 1) else i
  }

  lemma {:induction false} CheckSkipsBlanks(sha: Sha, lines: seq<Line>, i: nat, j: nat, prev: string)
    requires i <= j <= |lines| && forall k :: i <= k < j ==> lines[k].Blank?
    ensures CheckFrom(sha, lines, i, prev) == CheckFrom(sha, lines, j, prev)
    decreases j - i
  {
    if i < j {
      CheckSkipsBlanks(sha, lines, i + 1, j, prev);
    }
  }

  lemma CheckPasses(sha: Sha, lines: seq<Line>, i: nat)
    requires i < |lines| && (lines[i].Blank? || lines[i].Record?) && Chain(sha, Records(lines[..i + 1]))
    ensures CheckFrom(sha, lines, i, LastHash(sha, Records(lines[..i])))
         == CheckFrom(sha, lines, i + 1, LastHash(sha, Records(lines[..i + 1])))
  {
    RecordsStep(lines, i);
    if lines[i].Record? {
      ChainExtends(sha, Records(lines[..i]), lines[i].fields);
    }
  }

  /** Verification reaches line `k` with the hash of the records before it. */
  lemma {:induction false} CheckReaches(sha: Sha, lines: seq<Line>, k: nat)
    requires k <= |lines| && Readable(lines[..k]) && Chain(sha, Records(lines[..k]))
    ensures Check(sha, lines) == CheckFrom(sha, lines, k, LastHash(sha, Records(lines[..k])))
  {
    if k > 0 {
      assert lines[..k][..k - 1] == lines[..k - 1] && lines[..k][k - 1] == lines[k - 1];
      ChainPrefix(sha, lines[..k], k - 1);
      CheckReaches(sha, lines, k - 1);
      CheckPasses(sha, lines, k - 1);
    }
  }

  // ---- Replaced, deleted and inserted records ----

  /** The verdict when the lines it is about stand `d` lines further down. */
  function Moved(v: Verdict, d: int): Verdict {
    match v
    case Valid => Valid
    case Broken(n) => Broken(if n + d >= 0 then n + d else 0)
    case Crashed(n) => Crashed(if n + d >= 0 then n + d else 0)
  }

  /** The verdict on equal remainders differs only in the line numbers. */
  lemma {:induction false} CheckMoved(sha: Sha, a: seq<Line>, i: nat, b: seq<Line>, j: nat, prev: string)
    requires i <= |a| && j <= |b| && a[i..] == b[j..]
    ensures CheckFrom(sha, b, j, prev) == Moved(CheckFrom(sha, a, i, prev), j - i)
    decreases |a| - i
  {
    assert |a| - i == |b| - j;
    if i < |a| {
      assert a[i] == a[i..][0] == b[j..][0] == b[j];
      assert a[i + 1..] == a[i..][1..] == b[j..][1..] == b[j + 1..];
      if a[i].Blank? {
        CheckMoved(sha, a, i + 1, b, j + 1, prev);
      } else if a[i].Record? {
        CheckMoved(sha, a, i + 1, b, j + 1, sha(Body(a[i].fields)));
      }
    }
  }

  /** Verification of an accepted file from line `i` on with another hash than the right one: it
      stumbles over the next record, unless there is none. */
  lemma WrongHashVerdict(sha: Sha, lines: seq<Line>, i: nat, prev: string)
    requires Check(sha, lines).Valid? && i <= |lines|
    ensures var next := NextRecord(lines, i);
            CheckFrom(sha, lines, i, prev) ==
            if next == |lines| || prev == LastHash(sha, Records(lines[..i])) then Valid else Broken(next + 1)
  {
    var next, right := NextRecord(lines, i), LastHash(sha, Records(lines[..i]));
    CheckExplains(sha, lines);
    ChainPrefix(sha, lines, i);
    CheckReaches(sha, lines, i);
    if prev != right {
      CheckSkipsBlanks(sha, lines, i, next, prev);
      if next < |lines| {
        BlanksAddNothing(lines, i, next);
        PrefixWithNext(sha, lines, next);
        ChainExtends(sha, Records(lines[..next]), lines[next].fields);
        assert !Follows(lines[next].fields, prev);
      }
    }
  }

  /** Replacing one record of an accepted file by a different one. Unless the two entries
      collide, verification fails at that line or at the next record's line, and it stays
      silent exactly when there is no later record and the new one is sealed and linked. */
  lemma EditIsDetected(sha: Sha, lines: seq<Line>, i: nat, r': Fields)
    requires Check(sha, lines).Valid? && i < |lines| && lines[i].Record? && r' != lines[i].fields
    requires Injective(sha, Body(lines[i].fields), Body(r'))
    ensures var v := Check(sha, lines[i := Record(r')]);
            var next := NextRecord(lines, i + 1);
            var good := Follows(r', LastHash(sha, Records(lines[..i]))) && Sealed(sha, r');
            v == if !good then Broken(i + 1) else if next < |lines| then Broken(next + 1) else Valid
  {
    var r, lines' := lines[i].fields, lines[i := Record(r')];
    CheckExplains(sha, lines);
    ChainPrefix(sha, lines, i);
    ChainPrefix(sha, lines, i + 1);
    assert lines'[..i] == lines[..i] && lines'[i + 1..] == lines[i + 1..];
    CheckReaches(sha, lines', i);
    RecordsStep(lines, i);
    ChainExtends(sha, Records(lines[..i]), r);
    if Follows(r', LastHash(sha, Records(lines[..i]))) && Sealed(sha, r') {
      CheckMoved(sha, lines, i + 1, lines', i + 1, sha(Body(r')));
      WrongHashVerdict(sha, lines, i + 1, sha(Body(r')));
      if Body(r) == Body(r') { SameBodySameRecord(sha, r, r'); }
    }
  }

  /** Deleting one record of an accepted file is reported at the record that follows it, now one line
      up. It stays silent exactly for the last record, or when the record's digest equals the hash it
      was linked to. */
  lemma DeletionIsDetected(sha: Sha, lines: seq<Line>, i: nat)
    requires Check(sha, lines).Valid? && i < |lines| && lines[i].Record?
    ensures var next := NextRecord(lines, i + 1);
            Check(sha, lines[..i] + lines[i + 1..]) ==
            if next == |lines| || sha(Body(lines[i].fields)) == LastHash(sha, Records(lines[..i])) then Valid
            else Broken(next)
  {
    var lines', prev := lines[..i] + lines[i + 1..], LastHash(sha, Records(lines[..i]));
    CheckExplains(sha, lines);
    ChainPrefix(sha, lines, i);
    assert lines'[..i] == lines[..i] && lines'[i..] == lines[i + 1..];
    CheckReaches(sha, lines', i);
    CheckMoved(sha, lines, i + 1, lines', i, prev);
    WrongHashVerdict(sha, lines, i + 1, prev);
    RecordsStep(lines, i);
  }

  /** Inserting a record into an accepted file is reported at its own line, or at the record that
      follows it. It stays silent exactly for a sealed and linked record with no record after it, or
      one whose digest equals the hash it links to. */
  lemma InsertionIsDetected(sha: Sha, lines: seq<Line>, i: nat, r: Fields)
    requires Check(sha, lines).Valid? && i <= |lines|
    ensures var next, prev := NextRecord(lines, i), LastHash(sha, Records(lines[..i]));
            Check(sha, lines[..i] + ([Record(r)] + lines[i..])) ==
            if !(Follows(r, prev) && Sealed(sha, r)) then Broken(i + 1)
            else if next == |lines| || sha(Body(r)) == prev then Valid else Broken(next + 2)
  {
    var lines', prev := lines[..i] + ([Record(r)] + lines[i..]), LastHash(sha, Records(lines[..i]));
    CheckExplains(sha, lines);
    ChainPrefix(sha, lines, i);
    assert lines'[..i] == lines[..i] && lines'[i] == Record(r) && lines'[i + 1..] == lines[i..];
    CheckReaches(sha, lines', i);
    if Follows(r, prev) && Sealed(sha, r) {
      CheckMoved(sha, lines, i, lines', i + 1, sha(Body(r)));
      WrongHashVerdict(sha, lines, i, sha(Body(r)));
    }
  }

  lemma PrefixWithNext(sha: Sha, lines: seq<Line>, n: nat)
    requires Readable(lines) && Chain(sha, Records(lines)) && n < |lines| && lines[n].Record?
    ensures Chain(sha, Records(lines[..n]) + [lines[n].fields])
  {
    ChainPrefix(sha, lines, n + 1);
    RecordsStep(lines, n);
  }

  lemma {:induction false} BlanksAddNothing(lines: seq<Line>, i: nat, j: nat)
    requires i <= j <= |lines| && forall k :: i <= k < j ==> lines[k].Blank?
    ensures Records(lines[..j]) == Records(lines[..i])
    decreases j - i
  {
    if i < j {
      BlanksAddNothing(lines, i, j - 1);
      RecordsStep(lines, j - 1);
    }
  }
}
