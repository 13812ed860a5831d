/** The hash-chained log file (`read_events`, `append_event`). The digest is any function of a row and
    the hash before it; nothing is assumed of it, so tampering shows up as an explicit collision. */
module EventChain {
  import opened Outcomes
  import opened RunModel

  type Hash = string

  datatype Record = Record(row: Row, previous: Option<Hash>, hash: Hash)

  type Digest = (Row, Option<Hash>) -> Hash

  function HeadHash(file: seq<Record>): Option<Hash> {
    if file == [] then None else Some(Last(file).hash)
  }

  /** The record is the right one for its place after `before`. */
  predicate Continues(record: Record, before: seq<Record>, digest: Digest) {
    && record.row.number == |before| + 1
    && record.previous == HeadHash(before)
    && record.hash == digest(record.row, record.previous)
  }

  predicate Verifies(file: seq<Record>, digest: Digest) {
    forall i | 0 <= i < |file| :: Continues(file[i], file[..i], digest)
  }

  function Rows(file: seq<Record>): Log {
    seq(|file|, i requires 0 <= i < |file| => file[i].row)
  }

  /** Reading succeeds exactly on a non-empty file that verifies, and yields its rows. */
  method ReadEvents(file: seq<Record>, digest: Digest) returns (r: Result<Log, Refusal>)
    ensures r.Ok? <==> file != [] && Verifies(file, digest)
    ensures r.Ok? ==> r.value == Rows(file)
  {
    var events: Log := [];
    var previous: Option<Hash> := None;
    var i := 0;
    while i < |file|
      invariant 0 <= i <= |file|
      invariant Verifies(file[..i], digest)
      invariant previous == HeadHash(file[..i])
      invariant events == Rows(file[..i])
    {
      var record := file[i];
      assert file[..i + 1][..i] == file[..i];
      if record.row.number != i + 1 || record.previous != previous
        || record.hash != digest(record.row, record.previous) {
        assert !Continues(file[i], file[..i], digest);
        return Err(BrokenLog);
      }
      VerifiesMore(file[..i], record, digest);
      assert file[..i + 1] == file[..i] + [record];
      events := events + [record.row];
      previous := Some(record.hash);
      i := i + 1;
    }
    assert file[..i] == file;
    r := if events == [] then Err(BrokenLog) else Ok(events);
  }

  lemma VerifiesMore(file: seq<Record>, record: Record, digest: Digest)
    requires Verifies(file, digest) && Continues(record, file, digest)
    ensures Verifies(file + [record], digest)
    ensures Rows(file + [record]) == Rows(file) + [record.row]
  {
    var more := file + [record];
    forall i | 0 <= i < |more| ensures Continues(more[i], more[..i], digest) {
      assert more[..i] == if i < |file| then file[..i] else file;
    }
  }

  function Appended(file: seq<Record>, row: Row, digest: Digest): seq<Record> {
    file + [Record(row, HeadHash(file), digest(row, HeadHash(file)))]
  }

  /** Appending the next-numbered row keeps the file readable and adds that row. */
  lemma AppendKeepsReadable(file: seq<Record>, row: Row, digest: Digest)
    requires Verifies(file, digest) && row.number == |file| + 1
    ensures Verifies(Appended(file, row, digest), digest)
    ensures Rows(Appended(file, row, digest)) == Rows(file) + [row]
  {
    VerifiesMore(file, Record(row, HeadHash(file), digest(row, HeadHash(file))), digest);
  }

  /** Two different contents with one digest. */
  ghost predicate Collides(a: Record, b: Record, digest: Digest) {
    (a.row, a.previous) != (b.row, b.previous) && digest(a.row, a.previous) == digest(b.row, b.previous)
  }

  /** The head hash determines history: two files that verify and end in the same hash are identical
      record for record, or else they exhibit a collision of the digest. */
  lemma {:induction false} HeadDeterminesHistory(a: seq<Record>, b: seq<Record>, digest: Digest)
    returns (x: Record, y: Record)
    requires a != [] && b != [] && Verifies(a, digest) && Verifies(b, digest)
    requires Last(a).hash == Last(b).hash
    ensures a == b || (x in a && y in b && Collides(x, y, digest))
    decreases |a|
  {
    LastFits(a, digest);
    LastFits(b, digest);
    hide Verifies;
    x, y := Last(a), Last(b);
    if !Collides(x, y, digest) {
      assert |a| == |b| && x == y;
      assert a == Front(a) + [x] && b == Front(b) + [y];
      if |a| > 1 {
        hide Continues, Collides;
        assert Last(Front(a)).hash == Last(Front(b)).hash;
        x, y := HeadDeterminesHistory(Front(a), Front(b), digest);
      }
    }
  }

  lemma LastFits(file: seq<Record>, digest: Digest)
    requires file != [] && Verifies(file, digest)
    ensures Continues(Last(file), Front(file), digest) && Verifies(Front(file), digest)
    ensures |file| > 1 ==> Last(file).previous == Some(Last(Front(file)).hash)
  {
    PrefixVerifies(file, digest);
    assert Continues(file[|file| - 1], file[..|file| - 1], digest);
  }

  lemma PrefixVerifies(file: seq<Record>, digest: Digest)
    requires file != [] && Verifies(file, digest)
    ensures Verifies(Front(file), digest)
  {
    forall i | 0 <= i < |file| - 1 ensures Continues(Front(file)[i], Front(file)[..i], digest) {
      assert Front(file)[..i] == file[..i];
      assert Continues(file[i], file[..i], digest);
    }
  }
}
