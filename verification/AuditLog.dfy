/** The audit log file and its writer. Appending writes, remembers the new hash and
    publishes to the bus, all under one lock. */
module AuditLog {
  import opened Prelude
  import opened AuditChain
  import EventBus

  class AuditLog {
    const sha: Sha
    const bus: EventBus.EventBus<Fields>
    var lines: seq<Line>
    var lastHash: Json

    /** The file and the writer's hash. */
    ghost function View(): Log
      reads this
    {
      Log(lines, lastHash)
    }

    /** The writer continues from the last record of an accepted file. */
    ghost predicate Intact()
      reads this
    {
      Check(sha, lines).Valid? && lastHash == Text(LastHash(sha, Records(lines)))
    }

    /** Opens an existing file; fails when a line is JSON but not an object. */
    constructor (sha: Sha, bus: EventBus.EventBus<Fields>, lines: seq<Line>)
      requires Scan(lines).Some?
      ensures this.sha == sha && this.bus == bus && this.lines == lines && Some(lastHash) == Scan(lines)
      ensures Check(sha, lines).Valid? ==> Intact()
    {
      this.sha, this.bus, this.lines := sha, bus, lines;
      lastHash := Scan(lines).value;
      new;
      if Check(sha, lines).Valid? {
        ScanFindsLastHash(sha, lines);
      }
    }

    method ScanLastHash() returns (last: Option<Json>)
      ensures last == Scan(lines)
    {
      var hash := Text(GENESIS_HASH);
      for i := 0 to |lines|
        invariant ScanFrom(lines, i, hash) == Scan(lines)
      {
        match lines[i]
        case Blank =>
        case Malformed =>
        case NotAnObject => return None;
        case Record(r) => hash := if "hash" in r then r["hash"] else hash;
      }
      return Some(hash);
    }

    method Append(ts: real, event: string, payload: Json) returns (entry: Fields)
      modifies this, bus
      ensures View() == Perform(sha, old(View()), Op.Append(ts, event, payload))
      ensures |lines| == |old(lines)| + 1 && lines[..|old(lines)|] == old(lines) && lines[|old(lines)|] == Record(entry)
      ensures entry == Seal(sha, Entry(ts, event, payload, old(lastHash)))
      ensures Holds(entry, Event(ts, event, payload)) && entry["prev"] == old(lastHash)
      ensures entry["hash"] == lastHash == Text(sha(entry - {"hash"}))
      ensures bus.View() == EventBus.Published(old(bus.View()), entry)
      ensures old(Intact()) ==> Intact()
    {
      if Intact() {
        AppendKeepsValid(sha, View(), ts, event, payload);
      }
      AppendWrites(sha, View(), ts, event, payload);
      entry := Entry(ts, event, payload, lastHash);
      var digest := sha(entry);
      entry := entry["hash" := Text(digest)];
      lines := lines + [Record(entry)];
      lastHash := Text(digest);
      bus.Publish(entry);
    }

    /** Walks the file with the hash expected next. */
    method Verify() returns (v: Verdict)
      ensures v == Check(sha, lines)
      ensures v.Valid? <==> Readable(lines) && Chain(sha, Records(lines))
    {
      CheckExplains(sha, lines);
      var prev := GENESIS_HASH;
      for i := 0 to |lines|
        invariant CheckFrom(sha, lines, i, prev) == Check(sha, lines)
      {
        match lines[i]
        case Blank =>
        case Malformed => return Crashed(i + 1);
        case NotAnObject => return Crashed(i + 1);
        case Record(r) =>
          if !Follows(r, prev) {
            return Broken(i + 1);
          }
          var expected := sha(Body(r));
          if !("hash" in r && r["hash"] == Text(expected)) {
            return Broken(i + 1);
          }
          prev := expected;
      }
      return Valid;
    }
  }
}
