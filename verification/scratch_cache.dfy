/**
 The scratch-directory cache: every connection streams into its own
 directory `peerflix-<uuid>` under the system temp directory, and
 `clearTorrentCache` deletes every entry of the temp directory that carries
 that prefix. The directory listing is a sequence of entry names; deleting an
 entry (`rimraf.sync`) is the act of putting it in the removed sequence.
 */
module ScratchCache {

  /** The reserved prefix that marks a temp-directory entry as ours. */
  const Marker: string := "peerflix-"

  /** JavaScript's `s.substr(0, len)`: at most the first `len` characters. */
  function Head(s: string, len: nat): (r: string)
    ensures |r| == if |s| < len then |s| else len
    ensures r <= s
  {
    if |s| <= len then s else s[..len]
  }

  /** The test applied to each entry: its first nine characters are `peerflix-`. */
  predicate IsScratchEntry(name: string) {
    Head(name, 9) == Marker
  }

  /** The truncating `substr` comparison is exactly a prefix test: a name
      shorter than nine characters never matches. */
  lemma ScratchEntryIsPrefix(name: string)
    ensures IsScratchEntry(name) <==> Marker <= name
  {
  }

  /** The entry name of the scratch directory of a new connection. */
  function ScratchName(uuid: string): (name: string)
    ensures IsScratchEntry(name)
    ensures name[|Marker|..] == uuid
  {
    Marker + uuid
  }

  /** Different uuids give different scratch directories. */
  lemma ScratchNameInjective(u1: string, u2: string)
    ensures ScratchName(u1) == ScratchName(u2) <==> u1 == u2
  {
    if ScratchName(u1) == ScratchName(u2) {
      assert ScratchName(u1)[|Marker|..] == ScratchName(u2)[|Marker|..];
    }
  }

  /** The entries the purge deletes, in listing order. */
  function Removed(names: seq<string>): (r: seq<string>)
    ensures |r| <= |names|
    ensures forall i :: 0 <= i < |r| ==> IsScratchEntry(r[i])
    ensures forall x :: x in r <==> x in names && IsScratchEntry(x)
  {
    if |names| == 0 then []
    else if IsScratchEntry(names[0]) then [names[0]] + Removed(names[1..])
    else Removed(names[1..])
  }

  /** The filter works entry by entry: filtering a listing in two parts and
      joining the results is filtering the whole, so deleted entries keep
      their listing order. */
  lemma {:induction false} RemovedAppend(a: seq<string>, b: seq<string>)
    ensures Removed(a + b) == Removed(a) + Removed(b)
    decreases |a|
  {
    if |a| == 0 {
      assert a + b == b;
    } else {
      assert (a + b)[1..] == a[1..] + b;
      RemovedAppend(a[1..], b);
    }
  }

  /** The entries the purge leaves in place, in listing order. */
  function Kept(names: seq<string>): (r: seq<string>)
    ensures |r| <= |names|
    ensures forall i :: 0 <= i < |r| ==> !IsScratchEntry(r[i])
    ensures forall x :: x in r <==> x in names && !IsScratchEntry(x)
  {
    if |names| == 0 then []
    else if IsScratchEntry(names[0]) then Kept(names[1..])
    else [names[0]] + Kept(names[1..])
  }

  /** Every listed entry is either deleted or kept, never both, never lost,
      never duplicated. */
  lemma {:induction false} PurgePartitions(names: seq<string>)
    ensures multiset(Removed(names)) + multiset(Kept(names)) == multiset(names)
  {
    if |names| > 0 {
      PurgePartitions(names[1..]);
      assert names == [names[0]] + names[1..];
    }
  }

  /** What `fs.readdir` hands to the callback. */
  datatype Listing = Entries(names: seq<string>) | ReadError(error: string)

  /** The entries `clearTorrentCache` deletes for one `readdir` result: on an
      error it logs and returns without deleting anything. */
  function Purge(listing: Listing): (removed: seq<string>)
    ensures listing.ReadError? ==> removed == []
    ensures forall x :: x in removed <==> listing.Entries? && x in listing.names && IsScratchEntry(x)
  {
    match listing
    case ReadError(_) => []
    case Entries(names) => Removed(names)
  }

  /** Whether one `fs.readdir` of the temp directory succeeds. Each purge
      reads the directory afresh, so one failure says nothing of the next. */
  datatype ReadOutcome = ReadOk | ReadFailed(error: string)

  /** What `fs.readdir` hands to the callback for a directory holding `dir`. */
  function Readdir(dir: seq<string>, outcome: ReadOutcome): (listing: Listing)
    ensures listing.Entries? <==> outcome.ReadOk?
    ensures listing.Entries? ==> listing.names == dir
  {
    match outcome
    case ReadOk => Entries(dir)
    case ReadFailed(e) => ReadError(e)
  }

  /** The temp directory after one `clearTorrentCache`: a failed read leaves
      it as it was; otherwise exactly the deleted entries are gone. */
  function AfterPurge(dir: seq<string>, outcome: ReadOutcome): (after: seq<string>)
    ensures outcome.ReadFailed? ==> after == dir
    ensures outcome.ReadOk? ==> forall x :: x in after <==> x in dir && !IsScratchEntry(x)
    ensures multiset(after) + multiset(Purge(Readdir(dir, outcome))) == multiset(dir)
  {
    PurgePartitions(dir);
    match outcome
    case ReadOk => Kept(dir)
    case ReadFailed(_) => dir
  }

  /** After a purge that read the directory, a second purge deletes nothing,
      whether its own read succeeds or not. */
  lemma PurgeTwiceRemovesNothing(dir: seq<string>, first: ReadOutcome, second: ReadOutcome)
    requires first.ReadOk?
    ensures Purge(Readdir(AfterPurge(dir, first), second)) == []
  {
  }

  /** After a purge whose read failed, a purge that reads the directory
      deletes every prefixed entry, as if the first had not run. */
  lemma PurgeAfterFailedRead(dir: seq<string>, error: string)
    ensures Purge(Readdir(AfterPurge(dir, ReadFailed(error)), ReadOk)) == Removed(dir)
  {
  }

  /** One step of the filter: the first entry is deleted or kept, then the rest. */
  lemma RemovedStep(names: seq<string>, i: nat)
    requires i < |names|
    ensures Removed(names[i..]) ==
              (if IsScratchEntry(names[i]) then [names[i]] else []) + Removed(names[i + 1..])
  {
    assert names[i..][1..] == names[i + 1..];
  }

  /** The `files.forEach` loop of `clearTorrentCache`, entry by entry. */
  method PurgeEntries(listing: Listing) returns (removed: seq<string>)
    ensures removed == Purge(listing)
    ensures forall i :: 0 <= i < |removed| ==> IsScratchEntry(removed[i])
  {
    removed := [];
    if listing.ReadError? {
      return;
    }
    var names := listing.names;
    var i := 0;
    while i < |names|
      invariant 0 <= i <= |names|
      invariant removed + Removed(names[i..]) == Removed(names)
    {
      RemovedStep(names, i);
      if Head(names[i], 9) == Marker {
        removed := removed + [names[i]];
      }
      i := i + 1;
    }
    assert names[i..] == [];
  }

}
