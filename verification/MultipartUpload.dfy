/** Multipart uploads: the slices of the file, the two workers of the browser that share a
    cursor, and the list of parts the server accepts. */
module MultipartUpload {
  import opened Common
  import opened Sorting

  // ----- the slices

  /** `ceil(size / partSize)` */
  function PartCount(size: nat, partSize: nat): nat
    requires partSize > 0
  {
    (size + partSize - 1) / partSize
  }

  function Smaller(x: int, y: int): int {
    if x <= y then x else y
  }

  /** Where part n begins; parts are numbered from one. */
  function Offset(partSize: nat, n: nat): nat
    requires n > 0
  {
    (n - 1) * partSize
  }

  function PartLength(size: nat, partSize: nat, n: nat): nat
    requires n > 0
  {
    var length := Smaller(partSize, size - Offset(partSize, n));
    if length >= 0 then length else 0
  }

  lemma CountBounds(size: nat, partSize: nat)
    requires partSize > 0
    ensures PartCount(size, partSize) * partSize >= size
    ensures size > 0 ==> PartCount(size, partSize) > 0 && (PartCount(size, partSize) - 1) * partSize < size
  {
    var count := PartCount(size, partSize);
    assert size + partSize - 1 == count * partSize + (size + partSize - 1) % partSize;
    assert count * partSize == (count - 1) * partSize + partSize;
  }

  lemma OffsetsGrow(partSize: nat, m: nat, n: nat)
    requires 0 < m <= n
    ensures Offset(partSize, m) <= Offset(partSize, n)
  {
    assert (n - 1) * partSize == (m - 1) * partSize + (n - m) * partSize;
  }

  /** Every part up to the count begins inside the file. */
  lemma PartBegins(size: nat, partSize: nat, n: nat)
    requires partSize > 0 && size > 0 && 0 < n <= PartCount(size, partSize)
    ensures Offset(partSize, n) < size
  {
    CountBounds(size, partSize);
    OffsetsGrow(partSize, n, PartCount(size, partSize));
  }

  function Slice<T>(file: seq<T>, partSize: nat, n: nat): seq<T>
    requires n > 0 && Offset(partSize, n) <= |file|
  {
    var start := Offset(partSize, n);
    file[start..Smaller(|file|, start + partSize)]
  }

  /** The first n slices, one after the other. */
  function Slices<T>(file: seq<T>, partSize: nat, n: nat): seq<T>
    requires partSize > 0 && n <= PartCount(|file|, partSize)
  {
    if n == 0 then []
    else
      PartBeginsOrEmpty(|file|, partSize, n);
      Slices(file, partSize, n - 1) + Slice(file, partSize, n)
  }

  lemma PartBeginsOrEmpty(size: nat, partSize: nat, n: nat)
    requires partSize > 0 && 0 < n <= PartCount(size, partSize)
    ensures size > 0 && Offset(partSize, n) < size
  {
    NoParts(partSize);
    if size > 0 {
      PartBegins(size, partSize, n);
    }
  }

  lemma NoParts(partSize: nat)
    requires partSize > 0
    ensures PartCount(0, partSize) == 0
  {
  }

  lemma {:induction false} SlicesArePrefix<T>(file: seq<T>, partSize: nat, n: nat)
    requires partSize > 0 && n <= PartCount(|file|, partSize)
    ensures n * partSize >= 0
    ensures Slices(file, partSize, n) == file[..Smaller(|file|, n * partSize)]
  {
    if n > 0 {
      PartBeginsOrEmpty(|file|, partSize, n);
      SlicesArePrefix(file, partSize, n - 1);
      var start := Offset(partSize, n);
      assert n * partSize == start + partSize;
      assert file[..start] + file[start..Smaller(|file|, start + partSize)] == file[..Smaller(|file|, start + partSize)];
    }
  }

  /** The slices are nonempty, as long as announced, and make up the file. */
  lemma SlicesTile<T>(file: seq<T>, partSize: nat)
    requires partSize > 0
    ensures Slices(file, partSize, PartCount(|file|, partSize)) == file
    ensures forall n | 0 < n <= PartCount(|file|, partSize) ::
      Offset(partSize, n) <= |file| && 0 < |Slice(file, partSize, n)| == PartLength(|file|, partSize, n) <= partSize
  {
    CountBounds(|file|, partSize);
    SlicesArePrefix(file, partSize, PartCount(|file|, partSize));
    forall n | 0 < n <= PartCount(|file|, partSize)
      ensures Offset(partSize, n) <= |file| && 0 < |Slice(file, partSize, n)| == PartLength(|file|, partSize, n) <= partSize
    {
      PartBeginsOrEmpty(|file|, partSize, n);
    }
  }

  function TotalLength(size: nat, partSize: nat, n: nat): nat {
    if n == 0 then 0 else TotalLength(size, partSize, n - 1) + PartLength(size, partSize, n)
  }

  lemma {:induction false} LengthsAddUp<T>(file: seq<T>, partSize: nat, n: nat)
    requires partSize > 0 && n <= PartCount(|file|, partSize)
    ensures TotalLength(|file|, partSize, n) == |Slices(file, partSize, n)|
  {
    if n > 0 {
      PartBeginsOrEmpty(|file|, partSize, n);
      LengthsAddUp(file, partSize, n - 1);
    }
  }

  /** The announced lengths add up to the size of the file. */
  lemma LengthsTile<T>(file: seq<T>, partSize: nat)
    requires partSize > 0
    ensures TotalLength(|file|, partSize, PartCount(|file|, partSize)) == |file|
  {
    SlicesTile(file, partSize);
    LengthsAddUp(file, partSize, PartCount(|file|, partSize));
  }

  // ----- what the server accepts

  datatype Part = Part(number: int, etag: string)

  predicate ByNumber(p: Part, q: Part) {
    p.number <= q.number
  }

  function Numbers(parts: seq<Part>): (r: seq<int>)
    ensures |r| == |parts|
  {
    if parts == [] then [] else [parts[0].number] + Numbers(parts[1..])
  }

  /** 1, 2, ..., n */
  function UpTo(n: nat): (r: seq<int>)
    ensures |r| == n && forall i | 0 <= i < n :: r[i] == i + 1
  {
    seq(n, i => i + 1)
  }

  method Accepts(parts: seq<Part>, expectedParts: nat) returns (ok: bool)
    ensures ok <==> multiset(Numbers(parts)) == multiset(UpTo(expectedParts))
  {
    var sorted := StableSort(ByNumber, parts);
    AcceptsIff(parts, expectedParts);
    if |sorted| != expectedParts { return false; }
    var index := 0;
    while index < |sorted|
      invariant 0 <= index <= |sorted|
      invariant forall i | 0 <= i < index :: sorted[i].number == i + 1
    {
      if sorted[index].number != index + 1 { return false; }
      index := index + 1;
    }
    return true;
  }

  predicate InOrder(sorted: seq<Part>, expectedParts: nat) {
    |sorted| == expectedParts && forall i | 0 <= i < |sorted| :: sorted[i].number == i + 1
  }

  lemma {:induction false} NumbersAt(parts: seq<Part>, i: nat)
    requires i < |parts|
    ensures Numbers(parts)[i] == parts[i].number
  {
    if i > 0 { NumbersAt(parts[1..], i - 1); }
  }

  lemma {:induction false} NumbersInserted(p: Part, parts: seq<Part>)
    ensures multiset(Numbers(Insert(ByNumber, p, parts))) == multiset(Numbers(parts)) + multiset{p.number}
  {
    if parts == [] || ByNumber(p, parts[0]) {
      assert ([p] + parts)[1..] == parts;
    } else {
      NumbersInserted(p, parts[1..]);
      assert ([parts[0]] + Insert(ByNumber, p, parts[1..]))[1..] == Insert(ByNumber, p, parts[1..]);
    }
  }

  lemma {:induction false} NumbersSorted(parts: seq<Part>)
    ensures multiset(Numbers(StableSort(ByNumber, parts))) == multiset(Numbers(parts))
    ensures |StableSort(ByNumber, parts)| == |parts|
  {
    SortPermutes(ByNumber, parts);
    if parts != [] {
      NumbersSorted(parts[1..]);
      NumbersInserted(parts[0], StableSort(ByNumber, parts[1..]));
    }
  }

  /** The sort-and-compare check accepts exactly the arrangements of 1 to n. */
  lemma AcceptsIff(parts: seq<Part>, n: nat)
    ensures InOrder(StableSort(ByNumber, parts), n) <==> multiset(Numbers(parts)) == multiset(UpTo(n))
  {
    var sorted := StableSort(ByNumber, parts);
    var numbers := Numbers(sorted);
    NumbersSorted(parts);
    forall i | 0 <= i < |sorted| ensures numbers[i] == sorted[i].number {
      NumbersAt(sorted, i);
    }
    if InOrder(sorted, n) {
      assert numbers == UpTo(n);
    }
    if multiset(Numbers(parts)) == multiset(UpTo(n)) {
      SortSorts(ByNumber, parts);
      var le := (x: int, y: int) => x <= y;
      assert Sorted(le, numbers);
      SortedPermutationUnique(le, UpTo(n), numbers);
    }
  }

  // ----- the browser

  const BATCH_SIZE := 20

  class Uploader {
    const size: nat
    const partSize: nat
    /** The parts that are up, by number, as kept for a later attempt. */
    var completed: map<int, string>

    constructor (size: nat, partSize: nat, restored: map<int, string>)
      requires partSize > 0
      ensures this.size == size && this.partSize == partSize && completed == restored
    {
      this.size, this.partSize, completed := size, partSize, restored;
    }

    /** One batch of signed parts. Two workers take parts from a shared cursor; which of them
        moves next is left open. `fails` says which parts cannot be uploaded. */
    method UploadBatch(parts: seq<int>, etag: int -> string, fails: int -> bool)
      returns (ok: bool, ghost taken: seq<int>)
      modifies this`completed
      ensures taken <= parts
      ensures ok ==> taken == parts && Added(old(completed), completed, parts, etag)
      ensures Progress(old(completed), completed, parts, etag)
      ensures !ok <==> exists n :: n in parts && fails(n)
    {
      ghost var start := completed;
      var cursor := 0;
      var first: Option<int>, second: Option<int> := None, None;
      taken := [];
      ghost var done: seq<int> := [];
      while cursor < |parts| || first.Some? || second.Some?
        invariant 0 <= cursor <= |parts| && taken == parts[..cursor]
        invariant Added(start, completed, done, etag)
        invariant Shared(taken, done, first, second)
        invariant forall n | n in done :: !fails(n)
        invariant Progress(start, completed, parts, etag)
        decreases 2 * (|parts| - cursor) + (if first.Some? then 1 else 0) + (if second.Some? then 1 else 0)
      {
        if
        case first.None? && cursor < |parts| =>
          first := Some(parts[cursor]);
          taken := taken + [parts[cursor]];
          cursor := cursor + 1;
        case second.None? && cursor < |parts| && |parts| >= 2 =>
          second := Some(parts[cursor]);
          taken := taken + [parts[cursor]];
          cursor := cursor + 1;
        case first.Some? =>
          TakenIsPart(taken, done, first, second, first.value, parts, cursor);
          if fails(first.value) { ok := false; return; }
          OneMoreAdded(start, completed, done, first.value, etag);
          completed := completed[first.value := etag(first.value)];
          done := done + [first.value];
          first := None;
        case second.Some? =>
          TakenIsPart(taken, done, first, second, second.value, parts, cursor);
          if fails(second.value) { ok := false; return; }
          OneMoreAdded(start, completed, done, second.value, etag);
          completed := completed[second.value := etag(second.value)];
          done := done + [second.value];
          second := None;
      }
      SameAdded(start, completed, done, parts, etag);
      ok := true;
    }

    /** The numbers that are not up yet, in order. */
    function Pending(n: nat): (r: seq<int>)
      reads this`completed
      ensures forall k :: k in r <==> 1 <= k <= n && (k !in completed || completed[k] == "")
      ensures forall i | 0 <= i < |r| :: 1 <= r[i] <= n
      ensures forall i, j | 0 <= i < j < |r| :: r[i] < r[j]
    {
      if n == 0 then []
      else if n in completed && completed[n] != "" then Pending(n - 1)
      else Pending(n - 1) + [n]
    }

    /** The upload up to the confirm request: each pending part is taken exactly once, and the
        list that is sent is one the server accepts. */
    method UploadVideo(etag: int -> string, fails: int -> bool)
      returns (ok: bool, parts: seq<Part>, ghost taken: seq<int>, ghost batches: seq<seq<int>>)
      requires partSize > 0 && forall k | k in completed :: 1 <= k <= PartCount(size, partSize)
      modifies this`completed
      ensures ok ==> taken == old(Pending(PartCount(size, partSize)))
      ensures ok <==> NoneFails(old(completed), PartCount(size, partSize), fails)
      ensures Progress(old(completed), completed, old(Pending(PartCount(size, partSize))), etag)
      ensures ok ==> Finished(old(completed), completed, PartCount(size, partSize), etag)
      ensures ok ==> |parts| == PartCount(size, partSize)
      ensures ok ==> forall i | 0 <= i < |parts| :: parts[i].number == i + 1
      ensures ok ==> multiset(Numbers(parts)) == multiset(UpTo(PartCount(size, partSize)))
      ensures ok ==> Joined(batches) == taken && forall b | b in batches :: 0 < |b| <= 20
      ensures ok ==> forall p | p in parts :: p.number in completed && completed[p.number] == p.etag
    {
      var count := PartCount(size, partSize);
      var pending := Pending(count);
      parts := [];
      ok, taken, batches := UploadAll(pending, etag, fails);
      PendingSays(old(completed), completed, pending, count, etag, fails);
      if !ok { return; }
      parts := SortedEntries(count);
    }

    /** The parts sent, when all are up. */
    method SortedEntries(count: nat) returns (parts: seq<Part>)
      requires forall k :: k in completed <==> 1 <= k <= count
      ensures multiset(Numbers(parts)) == multiset(UpTo(count))
      ensures |parts| == count && forall i | 0 <= i < |parts| :: parts[i].number == i + 1
      ensures forall p | p in parts :: p.number in completed && completed[p.number] == p.etag
    {
      parts := Entries(count);
      KeysMakeUp(parts, count);
      AcceptsIff(parts, count);
      SortedStays(ByNumber, parts);
    }

    /** The loop over the batches. */
    method UploadAll(pending: seq<int>, etag: int -> string, fails: int -> bool)
      returns (ok: bool, ghost taken: seq<int>, ghost batches: seq<seq<int>>)
      modifies this`completed
      ensures ok ==> taken == pending && Added(old(completed), completed, pending, etag)
      ensures Progress(old(completed), completed, pending, etag)
      ensures !ok <==> exists n :: n in pending && fails(n)
      ensures Joined(batches) <= pending && (ok ==> Joined(batches) == pending)
      ensures forall b | b in batches :: 0 < |b| <= 20
    {
      taken, ok, batches := [], true, [];
      var offset := 0;
      while offset < |pending|
        invariant 0 <= offset && taken == pending[..Smaller(offset, |pending|)]
        invariant Added(old(completed), completed, taken, etag) && Progress(old(completed), completed, pending, etag)
        invariant ok && forall n | n in taken :: !fails(n)
        invariant Joined(batches) == taken && forall b | b in batches :: 0 < |b| <= 20
      {
        var end := Smaller(offset + BATCH_SIZE, |pending|);
        ghost var before := completed;
        ghost var batchTaken;
        ok, batchTaken := UploadBatch(pending[offset..end], etag, fails);
        MoreProgress(old(completed), before, completed, pending, offset, end, etag);
        assert forall n | n in pending[offset..end] :: n in pending;
        if !ok { return; }
        assert pending[..offset] + pending[offset..end] == pending[..end];
        AddedBoth(old(completed), before, completed, taken, batchTaken, etag);
        assert (batches + [batchTaken])[..|batches|] == batches;
        taken := taken + batchTaken;
        batches := batches + [batchTaken];
        offset := offset + BATCH_SIZE;
      }
    }

    /** The parts sent: `Object.entries` sorted by number. */
    method Entries(count: nat) returns (parts: seq<Part>)
      requires forall k | k in completed :: 1 <= k <= count
      ensures forall p | p in parts :: p.number in completed && completed[p.number] == p.etag
      ensures forall k :: multiset(Numbers(parts))[k] == if k in completed then 1 else 0
      ensures Sorted(ByNumber, parts)
    {
      var entries := EntriesOf(completed, count);
      parts := StableSort(ByNumber, entries);
      NumbersSorted(entries);
      SortSorts(ByNumber, entries);
      forall p ensures p in parts <==> p in entries {
        SortKeepsElements(ByNumber, entries, p);
      }
    }
  }

  /** Integer keys are listed in ascending order. */
  method EntriesOf(table: map<int, string>, count: nat) returns (entries: seq<Part>)
    requires forall k | k in table :: 1 <= k <= count
    ensures forall p | p in entries :: p.number in table && table[p.number] == p.etag
    ensures forall k :: multiset(Numbers(entries))[k] == if k in table then 1 else 0
  {
    entries := [];
    var n := count;
    while n > 0
      invariant n <= count
      invariant forall p | p in entries :: p.number in table && table[p.number] == p.etag
      invariant forall k :: multiset(Numbers(entries))[k] == if k in table && k > n then 1 else 0
    {
      if n in table {
        var entry := Part(n, table[n]);
        assert ([entry] + entries)[1..] == entries;
        entries := [entry] + entries;
      }
      n := n - 1;
    }
  }

  /** The parts listed have been uploaded, with their tags, and nothing else has changed. */
  ghost predicate Added(before: map<int, string>, after: map<int, string>, parts: seq<int>, etag: int -> string) {
    && (forall n :: n in after <==> n in before || n in parts)
    && (forall n | n in after :: after[n] == if n in parts then etag(n) else before[n])
  }

  /** A part that has no tag yet can be uploaded. */
  ghost predicate NoneFails(before: map<int, string>, count: nat, fails: int -> bool) {
    forall k | 1 <= k <= count && (k !in before || before[k] == "") :: !fails(k)
  }

  /** All parts are up, those that had a tag with that one, the others with a new one. */
  ghost predicate Finished(before: map<int, string>, after: map<int, string>, count: nat, etag: int -> string) {
    && (forall k :: k in after <==> 1 <= k <= count)
    && (forall k | k in after :: after[k] == if k in before && before[k] != "" then before[k] else etag(k))
  }

  lemma PendingSays(before: map<int, string>, after: map<int, string>, pending: seq<int>, count: nat,
      etag: int -> string, fails: int -> bool)
    requires forall k :: k in pending <==> 1 <= k <= count && (k !in before || before[k] == "")
    requires forall k | k in before :: 1 <= k <= count
    ensures (exists n :: n in pending && fails(n)) <==> !NoneFails(before, count, fails)
    ensures Added(before, after, pending, etag) ==> Finished(before, after, count, etag)
  {
  }

  /** Whatever happens, tags that were kept stay or are replaced by new ones of the parts at hand. */
  ghost predicate Progress(before: map<int, string>, after: map<int, string>, parts: seq<int>, etag: int -> string) {
    && (forall n | n in before :: n in after)
    && (forall n | n in after :: (n in before && after[n] == before[n]) || (n in parts && after[n] == etag(n)))
  }

  function Joined(batches: seq<seq<int>>): seq<int> {
    if batches == [] then [] else Joined(batches[..|batches| - 1]) + batches[|batches| - 1]
  }

  lemma MoreProgress(start: map<int, string>, before: map<int, string>, after: map<int, string>, pending: seq<int>,
      a: nat, b: nat, etag: int -> string)
    requires a <= b <= |pending|
    requires Progress(start, before, pending, etag) && Progress(before, after, pending[a..b], etag)
    ensures Progress(start, after, pending, etag)
  {
  }

  lemma AddedBoth(start: map<int, string>, before: map<int, string>, after: map<int, string>, first: seq<int>,
      second: seq<int>, etag: int -> string)
    requires Added(start, before, first, etag) && Added(before, after, second, etag)
    ensures Added(start, after, first + second, etag)
  {
  }

  lemma OneMoreAdded(before: map<int, string>, after: map<int, string>, parts: seq<int>, n: int, etag: int -> string)
    requires Added(before, after, parts, etag)
    ensures Added(before, after[n := etag(n)], parts + [n], etag)
  {
  }

  lemma SameAdded(before: map<int, string>, after: map<int, string>, parts: seq<int>, parts': seq<int>,
      etag: int -> string)
    requires Added(before, after, parts, etag) && forall n :: n in parts <==> n in parts'
    ensures Added(before, after, parts', etag)
  {
  }

  /** Every part taken is uploaded, or in the hands of one of the two workers. */
  ghost predicate Shared(taken: seq<int>, done: seq<int>, first: Option<int>, second: Option<int>) {
    forall n :: n in taken <==> n in done || first == Some(n) || second == Some(n)
  }

  lemma TakenIsPart(taken: seq<int>, done: seq<int>, first: Option<int>, second: Option<int>, n: int, parts: seq<int>, cursor: nat)
    requires Shared(taken, done, first, second) && (first == Some(n) || second == Some(n))
    requires cursor <= |parts| && taken == parts[..cursor]
    ensures n in parts
  {
    assert n in taken <==> n in done || first == Some(n) || second == Some(n);
  }

  lemma KeysMakeUp(parts: seq<Part>, n: nat)
    requires forall k :: multiset(Numbers(parts))[k] == if 1 <= k <= n then 1 else 0
    ensures multiset(Numbers(parts)) == multiset(UpTo(n))
  {
    forall k ensures multiset(UpTo(n))[k] == if 1 <= k <= n then 1 else 0 {
      UpToCounts(n, k);
    }
  }

  lemma {:induction false} UpToCounts(n: nat, k: int)
    ensures multiset(UpTo(n))[k] == if 1 <= k <= n then 1 else 0
  {
    if n == 0 {
      assert UpTo(0) == [];
    } else {
      UpToCounts(n - 1, k);
      assert UpTo(n) == UpTo(n - 1) + [n];
    }
  }
}
