/** When a perf.data file is not read: by its header, its sections, and the records that are reached. */
module Refusals {
  import opened Lines
  import opened Bytes
  import opened PerfFile

  const NAME: string := "PERFILE2"

  /** A header fits, and the file begins with its name. */
  predicate Named(file: Blob) {
    |file| >= 104 && forall i :: 0 <= i < 8 ==> file[i] == NAME[i] as int
  }

  /** The first attribute and the data section lie inside the file. */
  predicate Inside(file: Blob)
    requires |file| >= 104
  {
    && Word(file, 32, 8) >= 40 && Word(file, 24, 8) + 40 <= |file|
    && Word(file, 40, 8) + Word(file, 48, 8) <= |file|
  }

  /** A record stands at `pos`, and its fields can be read. */
  predicate Steps(file: Blob, st: nat, pos: nat, end: nat)
    requires end <= |file|
  {
    !Stops(file, pos, end) && Readable(file, pos, Word(file, pos + 6, 2), Word(file, pos, 4), st)
  }

  function Next(file: Blob, st: nat, pos: nat, end: nat): (next: nat)
    requires end <= |file| && Steps(file, st, pos, end)
    ensures next > pos
  {
    var size := Word(file, pos + 6, 2);
    pos + size + Payload(EntryAt(file, pos, size, st))
  }

  /** Going from record to record one comes to `at`. */
  predicate Comes(file: Blob, st: nat, pos: nat, end: nat, at: nat)
    requires end <= |file|
    decreases end - pos
  {
    at == pos || (Steps(file, st, pos, end) && Comes(file, st, Next(file, st, pos, end), end, at))
  }

  /** A record stands there that cannot be read. */
  predicate Unreadable(file: Blob, st: nat, at: nat, end: nat)
    requires end <= |file|
  {
    !Stops(file, at, end) && !Steps(file, st, at, end)
  }

  /** Going from record to record one comes to an unreadable one. */
  ghost predicate Strands(file: Blob, st: nat, pos: nat, end: nat)
    requires end <= |file|
  {
    exists at :: Comes(file, st, pos, end, at) && Unreadable(file, st, at, end)
  }

  lemma {:induction false} EntriesPanicIff(file: Blob, st: nat, pos: nat, end: nat)
    requires end <= |file|
    ensures Entries(file, st, pos, end).Panicked? <==> Strands(file, st, pos, end)
    ensures !Entries(file, st, pos, end).BadHeader? && !Entries(file, st, pos, end).BeyondEnd?
    decreases end - pos
  {
    hide EntryAt, Readable, Word;
    if Steps(file, st, pos, end) {
      var next := Next(file, st, pos, end);
      EntriesPanicIff(file, st, next, end);
      if at :| Comes(file, st, next, end, at) && Unreadable(file, st, at, end) {
        assert Comes(file, st, pos, end, at);
      }
    } else if !Stops(file, pos, end) {
      assert Comes(file, st, pos, end, pos);
    }
  }

  /**
   * A file has a bad header exactly if it does not begin with a whole header of the name; its sections end behind it
   * exactly if they do; and the reader panics exactly if, going from record to record, it comes to one whose fields
   * are not there.
   */
  lemma UnreadIff(file: Blob)
    ensures ReadPerfData(file).BadHeader? <==> !Named(file)
    ensures ReadPerfData(file).BeyondEnd? <==> Named(file) && !Inside(file)
    ensures ReadPerfData(file).Panicked? <==>
            && Named(file) && Inside(file)
            && var st, from := Word(file, Word(file, 24, 8) + 24, 8), Word(file, 40, 8);
               Strands(file, st, from, from + Word(file, 48, 8))
  {
    hide Entries, Word, Strands;
    if |file| >= 104 { NameIs(file); }
    if Named(file) && Inside(file) {
      EntriesPanicIff(file, Word(file, Word(file, 24, 8) + 24, 8), Word(file, 40, 8),
                      Word(file, 40, 8) + Word(file, 48, 8));
    }
  }

  lemma NameIs(file: Blob)
    requires |file| >= 104
    ensures file[..8] == MAGIC <==> forall i :: 0 <= i < 8 ==> file[i] == NAME[i] as int
  {}
}
