/** Disk footprint totals of a product: a file linked several times is measured once. */
module Footprint {
  import opened Counting

  datatype Kind = File | Directory | Symlink

  type Identity = (nat, nat)

  datatype Entry = Entry(kind: Kind, identity: Identity, logical: nat, onDisk: nat)

  datatype Totals = Totals(
    regularEntries: nat, uniqueFiles: nat, regularLogical: nat, regularOnDisk: nat,
    directories: nat, directoryOnDisk: nat, symlinks: nat, symlinkLogical: nat, symlinkOnDisk: nat)

  function Logical(): Entry -> nat { (e: Entry) => e.logical }

  function OnDisk(): Entry -> nat { (e: Entry) => e.onDisk }

  function OfKind(entries: seq<Entry>, k: Kind): seq<Entry> {
    if entries == [] then []
    else OfKind(entries[..|entries| - 1], k) + if entries[|entries| - 1].kind == k then [entries[|entries| - 1]] else []
  }

  function Identities(entries: seq<Entry>): set<Identity> { set e | e in entries && e.kind == File :: e.identity }

  /** The file entries that are the first to show their identity. */
  function Firsts(entries: seq<Entry>): seq<Entry> {
    if entries == [] then []
    else
      var front, last := entries[..|entries| - 1], entries[|entries| - 1];
      Firsts(front) + if last.kind == File && last.identity !in Identities(front) then [last] else []
  }

  function Assemble(files: seq<Entry>, firsts: seq<Entry>, directories: seq<Entry>, symlinks: seq<Entry>): Totals {
    Totals(|files|, |firsts|, Sum(firsts, Logical()), Sum(firsts, OnDisk()),
           |directories|, Sum(directories, OnDisk()), |symlinks|, Sum(symlinks, Logical()), Sum(symlinks, OnDisk()))
  }

  /** What the totals are of, kind by kind. */
  function TotalsOf(entries: seq<Entry>): Totals {
    Assemble(OfKind(entries, File), Firsts(entries), OfKind(entries, Directory), OfKind(entries, Symlink))
  }

  lemma SumMore(s: seq<Entry>, x: Entry, weight: Entry -> nat)
    ensures Sum(s + [x], weight) == Sum(s, weight) + weight(x)
  {
    assert (s + [x])[..|s|] == s;
  }

  lemma IdentityMore(front: seq<Entry>, last: Entry)
    ensures Identities(front + [last]) == Identities(front) + if last.kind == File then {last.identity} else {}
    ensures (front + [last])[..|front|] == front
  {
  }

  /** One entry more, as the loop accounts for it. */
  function Add(t: Totals, e: Entry, isNew: bool): Totals {
    match e.kind
    case File =>
      var counted := t.(regularEntries := t.regularEntries + 1);
      if !isNew then counted
      else counted.(uniqueFiles := t.uniqueFiles + 1, regularLogical := t.regularLogical + e.logical,
                    regularOnDisk := t.regularOnDisk + e.onDisk)
    case Directory => t.(directories := t.directories + 1, directoryOnDisk := t.directoryOnDisk + e.onDisk)
    case Symlink => t.(symlinks := t.symlinks + 1, symlinkLogical := t.symlinkLogical + e.logical,
                       symlinkOnDisk := t.symlinkOnDisk + e.onDisk)
  }

  lemma KindMore(front: seq<Entry>, last: Entry, k: Kind)
    ensures OfKind(front + [last], k) == if last.kind == k then OfKind(front, k) + [last] else OfKind(front, k)
  {
    assert (front + [last])[..|front|] == front;
  }

  lemma FirstsMore(front: seq<Entry>, last: Entry)
    ensures Firsts(front + [last]) ==
      if last.kind == File && last.identity !in Identities(front) then Firsts(front) + [last] else Firsts(front)
  {
    assert (front + [last])[..|front|] == front;
  }

  lemma AssembleMore(files: seq<Entry>, firsts: seq<Entry>, directories: seq<Entry>, symlinks: seq<Entry>, e: Entry)
    ensures var t := Assemble(files, firsts, directories, symlinks);
      && (e.kind == File ==>
            && Assemble(files + [e], firsts, directories, symlinks) == Add(t, e, false)
            && Assemble(files + [e], firsts + [e], directories, symlinks) == Add(t, e, true))
      && (e.kind == Directory ==>
            forall isNew :: Assemble(files, firsts, directories + [e], symlinks) == Add(t, e, isNew))
      && (e.kind == Symlink ==>
            forall isNew :: Assemble(files, firsts, directories, symlinks + [e]) == Add(t, e, isNew))
  {
    SumMore(firsts, e, Logical());
    SumMore(firsts, e, OnDisk());
    SumMore(directories, e, OnDisk());
    SumMore(symlinks, e, Logical());
    SumMore(symlinks, e, OnDisk());
  }

  lemma TotalsMore(front: seq<Entry>, last: Entry)
    ensures TotalsOf(front + [last]) == Add(TotalsOf(front), last, last.identity !in Identities(front))
  {
    KindMore(front, last, File);
    KindMore(front, last, Directory);
    KindMore(front, last, Symlink);
    FirstsMore(front, last);
    AssembleMore(OfKind(front, File), Firsts(front), OfKind(front, Directory), OfKind(front, Symlink), last);
  }

  /** The loop over the entries of all snapshots in turn, with the set of identities met so far. */
  method FootprintTotals(entries: seq<Entry>) returns (t: Totals)
    ensures t == TotalsOf(entries)
    ensures t.regularEntries == |OfKind(entries, File)| && t.uniqueFiles == |Firsts(entries)|
    ensures t.regularLogical == Sum(Firsts(entries), Logical()) && t.regularOnDisk == Sum(Firsts(entries), OnDisk())
    ensures t.directories == |OfKind(entries, Directory)|
    ensures t.directoryOnDisk == Sum(OfKind(entries, Directory), OnDisk())
    ensures t.symlinks == |OfKind(entries, Symlink)|
    ensures t.symlinkLogical == Sum(OfKind(entries, Symlink), Logical())
    ensures t.symlinkOnDisk == Sum(OfKind(entries, Symlink), OnDisk())
  {
    t := Totals(0, 0, 0, 0, 0, 0, 0, 0, 0);
    var seen: set<Identity> := {};
    for i := 0 to |entries|
      invariant t == TotalsOf(entries[..i]) && seen == Identities(entries[..i])
    {
      var e := entries[i];
      assert entries[..i + 1] == entries[..i] + [e];
      TotalsMore(entries[..i], e);
      IdentityMore(entries[..i], e);
      if e.kind == File {
        t := t.(regularEntries := t.regularEntries + 1);
        if e.identity !in seen {
          seen := seen + {e.identity};
          t := t.(uniqueFiles := t.uniqueFiles + 1, regularLogical := t.regularLogical + e.logical,
                  regularOnDisk := t.regularOnDisk + e.onDisk);
        }
      } else if e.kind == Directory {
        t := t.(directories := t.directories + 1, directoryOnDisk := t.directoryOnDisk + e.onDisk);
      } else {
        t := t.(symlinks := t.symlinks + 1, symlinkLogical := t.symlinkLogical + e.logical,
                symlinkOnDisk := t.symlinkOnDisk + e.onDisk);
      }
    }
    assert entries[..|entries|] == entries;
  }

  lemma OneMoreFirst(front: seq<Entry>, last: Entry)
    requires |Firsts(front)| == |Identities(front)|
    ensures |Firsts(front + [last])| == |Identities(front + [last])|
  {
    IdentityMore(front, last);
    FirstsMore(front, last);
    if last.kind == File && last.identity !in Identities(front) {
      assert |Identities(front) + {last.identity}| == |Identities(front)| + 1;
    } else {
      assert Identities(front + [last]) == Identities(front);
    }
  }

  /** As many unique files as identities. */
  lemma {:induction false} UniqueFilesAreIdentities(entries: seq<Entry>)
    ensures |Firsts(entries)| == |Identities(entries)|
    ensures TotalsOf(entries).uniqueFiles == |Identities(entries)|
  {
    if entries == [] {
      assert Identities(entries) == {};
    } else {
      UniqueFilesAreIdentities(entries[..|entries| - 1]);
      OneMoreFirst(entries[..|entries| - 1], entries[|entries| - 1]);
      assert entries == entries[..|entries| - 1] + [entries[|entries| - 1]];
    }
  }

  /** A file entry is measured exactly if none before it is a file with its identity; the sums add those sizes. */
  lemma {:induction false} FirstsAre(entries: seq<Entry>, x: Entry)
    ensures x in Firsts(entries) <==>
      exists i :: 0 <= i < |entries| && entries[i] == x && x.kind == File
                  && forall k :: 0 <= k < i ==> !(entries[k].kind == File && entries[k].identity == x.identity)
    ensures Logical()(x) == x.logical && OnDisk()(x) == x.onDisk
  {
    if entries != [] {
      var n := |entries| - 1;
      var front, last := entries[..n], entries[n];
      assert entries == front + [last];
      FirstsAre(front, x);
      assert last.identity in Identities(front) <==>
        exists k :: 0 <= k < n && front[k].kind == File && front[k].identity == last.identity;
      if i :| 0 <= i < n && front[i] == x && x.kind == File
              && forall k :: 0 <= k < i ==> !(front[k].kind == File && front[k].identity == x.identity) {
        assert entries[i] == x;
      }
      if last == x && x.kind == File && last.identity !in Identities(front) { assert entries[n] == x; }
    }
  }

  /** Links to one file report the same sizes. */
  ghost predicate LinksAgree(entries: seq<Entry>) {
    forall a, b :: a in entries && b in entries && a.kind == File && b.kind == File && a.identity == b.identity ==>
      a == b
  }

  lemma {:induction false} FirstsOnce(entries: seq<Entry>, e: Entry)
    requires LinksAgree(entries)
    ensures multiset(Firsts(entries))[e] == if e in entries && e.kind == File then 1 else 0
  {
    if entries != [] {
      var front, last := entries[..|entries| - 1], entries[|entries| - 1];
      assert entries == front + [last];
      FirstsOnce(front, e);
    }
  }

  lemma {:induction false} KindCount(entries: seq<Entry>, k: Kind, e: Entry)
    ensures multiset(OfKind(entries, k))[e] == if e.kind == k then multiset(entries)[e] else 0
  {
    if entries != [] {
      KindCount(entries[..|entries| - 1], k, e);
      assert entries == entries[..|entries| - 1] + [entries[|entries| - 1]];
    }
  }

  lemma KindPermutes(a: seq<Entry>, b: seq<Entry>, k: Kind)
    requires multiset(a) == multiset(b)
    ensures multiset(OfKind(a, k)) == multiset(OfKind(b, k)) && |OfKind(a, k)| == |OfKind(b, k)|
  {
    forall e ensures multiset(OfKind(a, k))[e] == multiset(OfKind(b, k))[e] {
      KindCount(a, k, e);
      KindCount(b, k, e);
    }
    assert |multiset(OfKind(a, k))| == |OfKind(a, k)| && |multiset(OfKind(b, k))| == |OfKind(b, k)|;
  }

  lemma FirstsPermute(a: seq<Entry>, b: seq<Entry>)
    requires multiset(a) == multiset(b) && LinksAgree(a)
    ensures multiset(Firsts(a)) == multiset(Firsts(b)) && |Firsts(a)| == |Firsts(b)|
  {
    forall e ensures e in a <==> e in b { assert e in multiset(a) <==> e in multiset(b); }
    forall e ensures multiset(Firsts(a))[e] == multiset(Firsts(b))[e] {
      FirstsOnce(a, e);
      FirstsOnce(b, e);
    }
    assert |multiset(Firsts(a))| == |Firsts(a)| && |multiset(Firsts(b))| == |Firsts(b)|;
  }

  /** The totals do not depend on the order in which trees or entries are listed, however files are linked. */
  lemma OrderDoesNotMatter(a: seq<Entry>, b: seq<Entry>)
    requires multiset(a) == multiset(b) && LinksAgree(a)
    ensures TotalsOf(a) == TotalsOf(b)
  {
    FirstsPermute(a, b);
    SumOfPermutation(Firsts(a), Firsts(b), Logical());
    SumOfPermutation(Firsts(a), Firsts(b), OnDisk());
    KindPermutes(a, b, File);
    KindPermutes(a, b, Directory);
    KindPermutes(a, b, Symlink);
    SumOfPermutation(OfKind(a, Directory), OfKind(b, Directory), OnDisk());
    SumOfPermutation(OfKind(a, Symlink), OfKind(b, Symlink), Logical());
    SumOfPermutation(OfKind(a, Symlink), OfKind(b, Symlink), OnDisk());
  }
}
