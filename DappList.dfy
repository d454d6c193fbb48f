/** The `dapp:list` handler's choice of dapp ids: every entry of the
    definitions directory whose name does not start with a dot. */
module DappList {

  /** `file.startsWith('.')` */
  predicate IsHidden(name: string) {
    |name| > 0 && name[0] == '.'
  }

  /** `files.filter((file) => !file.startsWith('.'))`; it never returns
      more entries than the listing has. */
  function VisibleEntries(files: seq<string>): (ids: seq<string>)
    ensures |ids| <= |files|
  {
    if |files| == 0 then []
    else (if IsHidden(files[0]) then [] else [files[0]]) + VisibleEntries(files[1..])
  }

  /** A name is returned exactly when it is in the listing and does not
      start with a dot. */
  lemma {:induction false} VisibleEntriesExact(files: seq<string>)
    ensures forall id :: id in VisibleEntries(files) <==> id in files && !IsHidden(id)
  {
    if |files| > 0 {
      VisibleEntriesExact(files[1..]);
      assert files == [files[0]] + files[1..];
    }
  }

  /** Filtering commutes with concatenation, so the ids keep the relative
      order they have in the directory listing. */
  lemma {:induction false} VisibleEntriesKeepOrder(a: seq<string>, b: seq<string>)
    ensures VisibleEntries(a + b) == VisibleEntries(a) + VisibleEntries(b)
  {
    if |a| > 0 {
      var head := if IsHidden(a[0]) then [] else [a[0]];
      assert (a + b)[0] == a[0] && (a + b)[1..] == a[1..] + b;
      assert VisibleEntries(a + b) == head + VisibleEntries(a[1..] + b);
      assert VisibleEntries(a) == head + VisibleEntries(a[1..]);
      VisibleEntriesKeepOrder(a[1..], b);
    } else {
      assert a + b == b;
    }
  }

  /** Each visible name occurs as often among the ids as in the listing,
      each hidden name not at all. */
  lemma {:induction false} VisibleEntriesMultiplicity(files: seq<string>, name: string)
    ensures multiset(VisibleEntries(files))[name] == if IsHidden(name) then 0 else multiset(files)[name]
  {
    if |files| > 0 {
      var head := if IsHidden(files[0]) then [] else [files[0]];
      VisibleEntriesMultiplicity(files[1..], name);
      assert files == [files[0]] + files[1..];
      assert multiset(files) == multiset([files[0]]) + multiset(files[1..]);
      assert multiset(VisibleEntries(files)) == multiset(head) + multiset(VisibleEntries(files[1..]));
    }
  }
}
