/** The Merkle-Patricia trie of crates/common/trie over keys of one fixed length.
    A root hash is modelled by the trie it commits to, so equal roots are equal tries. */
module Trie {
  import opened Options

  type Nibble = n: nat | n < 16

  type Path = seq<Nibble>

  /** A branch holds sixteen choices; a missing choice is an invalid node reference.
      Branch values never occur, because no key is a proper prefix of another. */
  datatype Node<V> =
    | Leaf(partial: Path, value: V)
    | Extension(prefix: Path, child: Node<V>)
    | Branch(choices: seq<Option<Node<V>>>)

  type Choices<V> = seq<Option<Node<V>>>

  /** The empty trie is None. */
  type Root<V> = Option<Node<V>>

  function EmptyChoices<V>(): (cs: Choices<V>)
    ensures |cs| == 16 && forall i | 0 <= i < 16 :: cs[i].None?
  {
    seq(16, _ => None)
  }

  /** Length of the longest common prefix. */
  function CountPrefix(p: Path, q: Path): (n: nat)
    ensures n <= |p| && n <= |q| && p[..n] == q[..n]
    ensures n < |p| && n < |q| ==> p[n] != q[n]
    ensures |p| == |q| && p != q ==> n < |p|
  {
    if p == [] || q == [] || p[0] != q[0] then 0
    else
      var n := CountPrefix(p[1..], q[1..]);
      assert p[..n + 1] == [p[0]] + p[1..][..n] && q[..n + 1] == [q[0]] + q[1..][..n];
      n + 1
  }

  // ---------------------------------------------------------------- meaning

  function Get<V>(n: Node<V>, path: Path): Option<V>
    decreases n
  {
    match n
    case Leaf(partial, value) => if partial == path then Some(value) else None
    case Extension(prefix, child) =>
      if prefix <= path then Get(child, path[|prefix|..]) else None
    case Branch(choices) =>
      if path == [] || |choices| != 16 || choices[path[0]].None? then None
      else Get(choices[path[0]].value, path[1..])
  }

  function GetChoice<V>(cs: Choices<V>, path: Path): Option<V>
    requires |cs| == 16 && path != []
  {
    if cs[path[0]].None? then None else Get(cs[path[0]].value, path[1..])
  }

  function GetRoot<V>(t: Root<V>, path: Path): Option<V> {
    if t.None? then None else Get(t.value, path)
  }

  /** The shape every committed trie has: an extension leads to a branch, and a branch
      has at least two children. */
  ghost predicate Canonical<V>(n: Node<V>, k: nat)
    decreases n
  {
    match n
    case Leaf(partial, _) => |partial| == k
    case Extension(prefix, child) =>
      0 < |prefix| <= k && child.Branch? && Canonical(child, k - |prefix|)
    case Branch(choices) =>
      && k > 0
      && |choices| == 16
      && (forall i | 0 <= i < 16 && choices[i].Some? :: Canonical(choices[i].value, k - 1))
      && Forking(choices)
  }

  ghost predicate Forking<V>(cs: Choices<V>)
    requires |cs| == 16
  {
    exists i, j :: 0 <= i < j < 16 && cs[i].Some? && cs[j].Some?
  }

  ghost predicate CanonicalChoices<V>(cs: Choices<V>, k: nat) {
    |cs| == 16 && forall i | 0 <= i < 16 && cs[i].Some? :: Canonical(cs[i].value, k)
  }

  ghost predicate CanonicalRoot<V>(t: Root<V>, k: nat) {
    t.Some? ==> Canonical(t.value, k)
  }

  // ---------------------------------------------------------------- uniqueness

  /** A canonical node stores something. */
  lemma {:induction false} Inhabited<V>(n: Node<V>, k: nat) returns (p: Path)
    requires Canonical(n, k)
    ensures |p| == k && Get(n, p).Some?
    decreases n
  {
    match n
    case Leaf(partial, _) => p := partial;
    case Extension(prefix, child) =>
      var q := Inhabited(child, k - |prefix|);
      p := prefix + q;
      assert p[|prefix|..] == q;
    case Branch(choices) =>
      var i, j :| 0 <= i < j < 16 && choices[i].Some? && choices[j].Some?;
      p := InhabitedAt(n, k, i);
  }

  lemma {:induction false} InhabitedAt<V>(n: Node<V>, k: nat, i: Nibble) returns (p: Path)
    requires n.Branch? && Canonical(n, k) && n.choices[i].Some?
    ensures |p| == k && p[0] == i && Get(n, p).Some?
    decreases n, 0
  {
    var q := Inhabited(n.choices[i].value, k - 1);
    p := [i] + q;
    assert p[1..] == q;
  }

  /** A branch stores two keys that already differ in their first nibble. */
  lemma Forks<V>(n: Node<V>, k: nat) returns (p: Path, q: Path)
    requires n.Branch? && Canonical(n, k)
    ensures |p| == |q| == k && p[0] != q[0] && Get(n, p).Some? && Get(n, q).Some?
  {
    var i, j :| 0 <= i < j < 16 && n.choices[i].Some? && n.choices[j].Some?;
    p := InhabitedAt(n, k, i);
    q := InhabitedAt(n, k, j);
  }

  ghost predicate SameContent<V>(a: Node<V>, b: Node<V>, k: nat) {
    forall p: Path | |p| == k :: Get(a, p) == Get(b, p)
  }

  lemma {:induction false} BranchStays<V>(a: Node<V>, b: Node<V>, k: nat)
    requires Canonical(a, k) && Canonical(b, k) && a.Branch? && SameContent(a, b, k)
    ensures b.Branch?
  {
    var p, q := Forks(a, k);
    assert Get(b, p).Some? && Get(b, q).Some?;
  }

  lemma {:induction false} LeafIsNotExtension<V>(a: Node<V>, b: Node<V>, k: nat)
    requires Canonical(a, k) && Canonical(b, k) && a.Leaf? && b.Extension?
    ensures !SameContent(a, b, k)
  {
    var p, q := Forks(b.child, k - |b.prefix|);
    var p', q' := b.prefix + p, b.prefix + q;
    assert p'[|b.prefix|..] == p && q'[|b.prefix|..] == q;
    assert Get(b, p').Some? && Get(b, q').Some?;
    assert !(Get(a, p').Some? && Get(a, q').Some?);
  }

  lemma {:induction false} PrefixesAgree<V>(a: Node<V>, b: Node<V>, k: nat)
    requires Canonical(a, k) && Canonical(b, k) && a.Extension? && b.Extension? && SameContent(a, b, k)
    ensures a.prefix <= b.prefix
  {
    var p, q := Forks(b.child, k - |b.prefix|);
    var p', q' := b.prefix + p, b.prefix + q;
    assert p'[|b.prefix|..] == p && q'[|b.prefix|..] == q;
    assert Get(a, p').Some? && Get(a, q').Some?;
    assert a.prefix <= p' && a.prefix <= q';
    assert p'[|b.prefix|] != q'[|b.prefix|];
  }

  /** A canonical trie is determined by what it stores. */
  lemma {:induction false} Unique<V>(a: Node<V>, b: Node<V>, k: nat)
    requires Canonical(a, k) && Canonical(b, k) && SameContent(a, b, k)
    ensures a == b
    decreases k, 1
  {
    if a.Branch? {
      BranchStays(a, b, k);
      forall i | 0 <= i < 16
        ensures a.choices[i] == b.choices[i]
      {
        forall t: Path | |t| == k - 1
          ensures GetChoice(a.choices, [i] + t) == GetChoice(b.choices, [i] + t)
        {
          assert Get(a, [i] + t) == Get(b, [i] + t);
        }
        ChoiceUnique(a.choices, b.choices, i, k);
      }
    } else if b.Branch? {
      BranchStays(b, a, k);
    } else if a.Leaf? && b.Leaf? {
      assert Get(a, a.partial) == Get(b, a.partial);
    } else if a.Leaf? {
      LeafIsNotExtension(a, b, k);
    } else if b.Leaf? {
      LeafIsNotExtension(b, a, k);
    } else {
      PrefixesAgree(a, b, k);
      PrefixesAgree(b, a, k);
      forall t: Path | |t| == k - |a.prefix|
        ensures Get(a.child, t) == Get(b.child, t)
      {
        assert (a.prefix + t)[|a.prefix|..] == t;
        assert Get(a, a.prefix + t) == Get(b, a.prefix + t);
      }
      Unique(a.child, b.child, k - |a.prefix|);
    }
  }

  /** One choice of a branch is determined by the keys that start with its nibble. */
  lemma {:induction false} ChoiceUnique<V>(cs: Choices<V>, ds: Choices<V>, i: Nibble, k: nat)
    requires k > 0 && CanonicalChoices(cs, k - 1) && CanonicalChoices(ds, k - 1)
    requires forall t: Path | |t| == k - 1 :: GetChoice(cs, [i] + t) == GetChoice(ds, [i] + t)
    ensures cs[i] == ds[i]
    decreases k, 0
  {
    forall t: Path | |t| == k - 1
      ensures GetRoot(cs[i], t) == GetRoot(ds[i], t)
    {
      assert ([i] + t)[1..] == t;
      assert GetChoice(cs, [i] + t) == GetChoice(ds, [i] + t);
    }
    RootUnique(cs[i], ds[i], k - 1);
  }

  lemma {:induction false} RootUnique<V>(a: Root<V>, b: Root<V>, k: nat)
    requires CanonicalRoot(a, k) && CanonicalRoot(b, k)
    requires forall p: Path | |p| == k :: GetRoot(a, p) == GetRoot(b, p)
    ensures a == b
    decreases k, 2
  {
    if a.Some? && b.Some? {
      forall p: Path | |p| == k
        ensures Get(a.value, p) == Get(b.value, p)
      {
        assert GetRoot(a, p) == GetRoot(b, p);
      }
      Unique(a.value, b.value, k);
    } else if a.Some? {
      SomeDiffers(a.value, k);
    } else if b.Some? {
      SomeDiffers(b.value, k);
    }
  }

  /** A canonical node holds something that the empty trie does not. */
  lemma {:induction false} SomeDiffers<V>(n: Node<V>, k: nat)
    requires Canonical(n, k)
    ensures exists p: Path :: |p| == k && GetRoot(Some(n), p) != GetRoot<V>(None, p)
    decreases k, 2
  {
    var p := Inhabited(n, k);
    assert GetRoot(Some(n), p) != GetRoot<V>(None, p);
  }

  // ---------------------------------------------------------------- insert and remove

  function Insert<V>(n: Node<V>, path: Path, value: V): (r: Node<V>)
    requires Canonical(n, |path|)
    decreases |path|, if n.Extension? then 1 else 0
  {
    match n
    case Leaf(partial, current) =>
      if partial == path then Leaf(partial, value)
      else
        var m := CountPrefix(path, partial);
        var branch := Branch(EmptyChoices<V>()
                      [path[m] := Some(Leaf(path[m + 1..], value))]
                      [partial[m] := Some(Leaf(partial[m + 1..], current))]);
        if m == 0 then branch else Extension(path[..m], branch)
    case Extension(prefix, child) =>
      var m := CountPrefix(path, prefix);
      if m == |prefix| then
        Extension(prefix, Insert(child, path[m..], value))
      else if m == 0 then
        var rest := if |prefix| == 1 then child else Extension(prefix[1..], child);
        // The new key leaves the prefix at once, so it becomes a fresh leaf of the branch.
        Branch(EmptyChoices<V>()[prefix[0] := Some(rest)]
               [path[0] := Some(Leaf(path[1..], value))])
      else
        Extension(prefix[..m], Insert(Extension(prefix[m..], child), path[m..], value))
    case Branch(choices) =>
      var c := path[0];
      if choices[c].None? then Branch(choices[c := Some(Leaf(path[1..], value))])
      else Branch(choices[c := Some(Insert(choices[c].value, path[1..], value))])
  }

  /** Index of the first valid choice at or after i, or 16. */
  function FirstValid<V>(cs: Choices<V>, i: nat): (j: nat)
    requires |cs| == 16 && i <= 16
    ensures i <= j <= 16 && (j < 16 ==> cs[j].Some?)
    ensures forall l | i <= l < j :: cs[l].None?
    decreases 16 - i
  {
    if i == 16 || cs[i].Some? then i else FirstValid(cs, i + 1)
  }

  /** Folds a root branch with one child into that child, and with none into the empty trie. */
  function Collapse<V>(cs: Choices<V>): (t: Root<V>)
    requires |cs| == 16
  {
    var i := FirstValid(cs, 0);
    if i == 16 then None
    else if FirstValid(cs, i + 1) < 16 then Some(Branch(cs))
    else Some(Prepend([i], cs[i].value))
  }

  /** The same folding after a removal below a branch, which keeps a childless branch. */
  function Restructure<V>(cs: Choices<V>): (t: Node<V>)
    requires |cs| == 16
  {
    var i := FirstValid(cs, 0);
    if i == 16 || FirstValid(cs, i + 1) < 16 then Branch(cs) else Prepend([i], cs[i].value)
  }

  /** Re-roots a node below extra leading nibbles. */
  function Prepend<V>(prefix: Path, n: Node<V>): Node<V> {
    match n
    case Branch(_) => Extension(prefix, n)
    case Extension(p, child) => Extension(prefix + p, child)
    case Leaf(p, value) => Leaf(prefix + p, value)
  }

  function Remove<V>(n: Node<V>, path: Path): (r: Root<V>)
    decreases n
  {
    match n
    case Leaf(partial, _) => if partial == path then None else Some(n)
    case Extension(prefix, child) =>
      if !(prefix <= path) then Some(n)
      else
        var rest := Remove(child, path[|prefix|..]);
        if rest.None? then None else Some(Prepend(prefix, rest.value))
    case Branch(choices) =>
      if |choices| != 16 then Some(n)
      else if path == [] || choices[path[0]].None? then Some(Restructure(choices))
      else Some(Restructure(choices[path[0] := Remove(choices[path[0]].value, path[1..])]))
  }

  function InsertRoot<V>(t: Root<V>, path: Path, value: V): Root<V>
    requires CanonicalRoot(t, |path|)
  {
    if t.None? then Some(Leaf(path, value)) else Some(Insert(t.value, path, value))
  }

  function RemoveRoot<V>(t: Root<V>, path: Path): Root<V> {
    if t.None? then None else Remove(t.value, path)
  }

  /** Turns any non-empty root into a branch, as the owner of one nibble needs it. */
  function Branchify<V>(t: Root<V>): (cs: Choices<V>)
    requires t.Some? ==> t.value.Branch? || (t.value.Leaf? && t.value.partial != []) || (t.value.Extension? && t.value.prefix != [])
  {
    match t
    case None => EmptyChoices()
    case Some(Branch(choices)) => choices
    case Some(Extension(prefix, child)) =>
      EmptyChoices<V>()[prefix[0] := Some(if |prefix| == 1 then child else Extension(prefix[1..], child))]
    case Some(Leaf(partial, value)) =>
      EmptyChoices<V>()[partial[0] := Some(Leaf(partial[1..], value))]
  }

  // ---------------------------------------------------------------- correctness

  lemma SplitHead(p: Path)
    requires p != []
    ensures [p[0]] + p[1..] == p
  {}

  lemma PrefixSplit(a: Path, b: Path, p: Path)
    ensures a + b <= p <==> a <= p && b <= p[|a|..]
    ensures a + b <= p ==> p[|a|..][|b|..] == p[|a + b|..]
    ensures a + b == p <==> a <= p && b == p[|a|..]
  {
    if a <= p && b <= p[|a|..] {
      assert p == a + p[|a|..] && p[|a|..] == b + p[|a|..][|b|..];
    }
    if a + b <= p {
      assert p == a + (b + p[|a + b|..]);
    }
  }

  lemma {:induction false} PrependCorrect<V>(prefix: Path, n: Node<V>, k: nat)
    requires prefix != [] && Canonical(n, k)
    ensures Canonical(Prepend(prefix, n), |prefix| + k)
    ensures forall p: Path | |p| == |prefix| + k ::
              Get(Prepend(prefix, n), p) == if prefix <= p then Get(n, p[|prefix|..]) else None
  {
    forall p: Path | |p| == |prefix| + k
      ensures Get(Prepend(prefix, n), p) == if prefix <= p then Get(n, p[|prefix|..]) else None
    {
      PrefixSplit(prefix, if n.Leaf? then n.partial else if n.Extension? then n.prefix else [], p);
    }
  }

  /** Folding a branch keeps every key, and yields a canonical root. */
  lemma {:induction false} CollapseCorrect<V>(cs: Choices<V>, k: nat)
    requires CanonicalChoices(cs, k)
    ensures CanonicalRoot(Collapse(cs), k + 1)
    ensures forall p: Path | |p| == k + 1 :: GetRoot(Collapse(cs), p) == GetChoice(cs, p)
  {
    var i := FirstValid(cs, 0);
    if i < 16 && FirstValid(cs, i + 1) == 16 {
      PrependCorrect([i], cs[i].value, k);
      forall p: Path | |p| == k + 1
        ensures GetRoot(Collapse(cs), p) == GetChoice(cs, p)
      {
        assert [i] <= p <==> p[0] == i;
      }
    }
  }

  lemma {:induction false} BranchifyCorrect<V>(t: Root<V>, k: nat)
    requires k > 0 && CanonicalRoot(t, k)
    ensures CanonicalChoices(Branchify(t), k - 1)
    ensures forall p: Path | |p| == k :: GetChoice(Branchify(t), p) == GetRoot(t, p)
  {
    if t.Some? && !t.value.Branch? {
      forall p: Path | |p| == k
        ensures GetChoice(Branchify(t), p) == GetRoot(t, p)
      {
        SplitHead(p);
        if t.value.Extension? {
          var prefix := t.value.prefix;
          SplitHead(prefix);
          if |prefix| > 1 && p[0] == prefix[0] {
            assert prefix[1..] <= p[1..] <==> prefix <= p;
            if prefix <= p { assert p[1..][|prefix| - 1..] == p[|prefix|..]; }
          }
        } else {
          SplitHead(t.value.partial);
        }
      }
    }
  }

  /** Collapse undoes branchify on every canonical root. */
  lemma CollapseBranchify<V>(t: Root<V>, k: nat)
    requires k > 0 && CanonicalRoot(t, k)
    ensures Collapse(Branchify(t)) == t
  {
    BranchifyCorrect(t, k);
    CollapseCorrect(Branchify(t), k - 1);
    forall p: Path | |p| == k
      ensures GetRoot(Collapse(Branchify(t)), p) == GetRoot(t, p)
    {
      assert GetChoice(Branchify(t), p) == GetRoot(t, p);
    }
    RootUnique(Collapse(Branchify(t)), t, k);
  }

  ghost predicate Updates<V>(before: Root<V>, after: Root<V>, path: Path, value: Option<V>) {
    && CanonicalRoot(after, |path|)
    && forall p: Path | |p| == |path| :: GetRoot(after, p) == if p == path then value else GetRoot(before, p)
  }

  /** An update below a common prefix. */
  lemma {:induction false} UnderPrefix<V>(prefix: Path, n: Node<V>, after: Root<V>, path: Path, value: Option<V>)
    requires prefix != [] && Canonical(n, |path|) && Updates(Some(n), after, path, value)
    ensures var lifted := if after.None? then None else Some(Prepend(prefix, after.value));
            Updates(Some(Prepend(prefix, n)), lifted, prefix + path, value)
  {
    var lifted := if after.None? then None else Some(Prepend(prefix, after.value));
    PrependCorrect(prefix, n, |path|);
    if after.Some? { PrependCorrect(prefix, after.value, |path|); }
    forall p: Path | |p| == |prefix + path|
      ensures GetRoot(lifted, p) == if p == prefix + path then value else Get(Prepend(prefix, n), p)
    {
      UnderPrefixAt(prefix, n, after, path, value, p);
    }
  }

  lemma {:induction false} UnderPrefixAt<V>(prefix: Path, n: Node<V>, after: Root<V>, path: Path, value: Option<V>, p: Path)
    requires prefix != [] && Canonical(n, |path|) && Updates(Some(n), after, path, value) && |p| == |prefix + path|
    ensures var lifted := if after.None? then None else Some(Prepend(prefix, after.value));
            GetRoot(lifted, p) == if p == prefix + path then value else Get(Prepend(prefix, n), p)
  {
    PrependCorrect(prefix, n, |path|);
    if after.Some? { PrependCorrect(prefix, after.value, |path|); }
    PrefixSplit(prefix, path, p);
    var q := p[|prefix|..];
    assert GetRoot(after, q) == if q == path then value else GetRoot(Some(n), q);
  }

  /** An update below one choice. */
  lemma {:induction false} UnderChoice<V>(cs: Choices<V>, c: Nibble, after: Root<V>, path: Path, value: Option<V>)
    requires CanonicalChoices(cs, |path|) && Updates(cs[c], after, path, value)
    ensures CanonicalChoices(cs[c := after], |path|)
    ensures forall p: Path | |p| == |path| + 1 ::
              GetChoice(cs[c := after], p) == if p == [c] + path then value else GetChoice(cs, p)
  {
    forall p: Path | |p| == |path| + 1
      ensures GetChoice(cs[c := after], p) == if p == [c] + path then value else GetChoice(cs, p)
    {
      SplitHead(p);
      var q := p[1..];
      assert GetRoot(after, q) == if q == path then value else GetRoot(cs[c], q);
    }
  }

  /** A branch made of exactly two children. */
  lemma {:induction false} BranchOfTwo<V>(c: Nibble, d: Nibble, x: Node<V>, y: Node<V>, k: nat)
    requires c != d && Canonical(x, k) && Canonical(y, k)
    ensures var b := Branch(EmptyChoices<V>()[c := Some(x)][d := Some(y)]);
            && Canonical(b, k + 1)
            && forall p: Path | |p| == k + 1 ::
                 Get(b, p) == if p[0] == c then Get(x, p[1..]) else if p[0] == d then Get(y, p[1..]) else None
  {
    var cs := EmptyChoices<V>()[c := Some(x)][d := Some(y)];
    assert cs[c].Some? && cs[d].Some?;
  }

  /** Splitting a leaf whose remaining path differs at once. */
  lemma {:induction false} SplitLeaf<V>(n: Node<V>, path: Path, value: V)
    requires n.Leaf? && path != [] && Canonical(n, |path|) && n.partial[0] != path[0]
    ensures Updates(Some(n), Some(Insert(n, path, value)), path, Some(value))
    ensures Insert(n, path, value).Branch?
  {
    BranchOfTwo(path[0], n.partial[0], Leaf(path[1..], value), Leaf(n.partial[1..], n.value), |path| - 1);
    forall p: Path | |p| == |path|
      ensures Get(Insert(n, path, value), p) == if p == path then Some(value) else Get(n, p)
    {
      SplitHead(p);
      SplitHead(path);
      SplitHead(n.partial);
    }
  }

  lemma {:induction false} InsertLeaf<V>(n: Node<V>, path: Path, value: V)
    requires n.Leaf? && Canonical(n, |path|) && n.partial != path
    ensures Updates(Some(n), Some(Insert(n, path, value)), path, Some(value))
  {
    var m := CountPrefix(path, n.partial);
    var below := Leaf(n.partial[m..], n.value);
    SplitLeaf(below, path[m..], value);
    assert path == path[..m] + path[m..] && n.partial == path[..m] + n.partial[m..];
    if m > 0 {
      UnderPrefix(path[..m], below, Some(Insert(below, path[m..], value)), path[m..], Some(value));
      assert path[m..][1..] == path[m + 1..] && n.partial[m..][1..] == n.partial[m + 1..];
    }
  }

  /** Inserting stores the value at its path, changes no other path and stays canonical. */
  lemma {:induction false} InsertCorrect<V>(n: Node<V>, path: Path, value: V)
    requires Canonical(n, |path|)
    ensures Updates(Some(n), Some(Insert(n, path, value)), path, Some(value))
    ensures n.Branch? ==> Insert(n, path, value).Branch?
    decreases |path|, if n.Extension? then 1 else 0
  {
    match n
    case Leaf(partial, _) => if partial != path { InsertLeaf(n, path, value); }
    case Extension(prefix, child) => InsertExtension(n, path, value);
    case Branch(choices) =>
      var c := path[0];
      SplitHead(path);
      if choices[c].Some? { InsertCorrect(choices[c].value, path[1..], value); }
      var after := Insert(n, path, value).choices[c];
      UnderChoice(choices, c, after, path[1..], Some(value));
      StillForks(choices, c, after);
  }

  lemma StillForks<V>(cs: Choices<V>, c: Nibble, after: Root<V>)
    requires |cs| == 16 && after.Some?
    requires Forking(cs)
    ensures Forking(cs[c := after])
  {
    var i, j :| 0 <= i < j < 16 && cs[i].Some? && cs[j].Some?;
    assert cs[c := after][i].Some? && cs[c := after][j].Some?;
  }

  lemma {:induction false} InsertExtension<V>(n: Node<V>, path: Path, value: V)
    requires n.Extension? && Canonical(n, |path|)
    ensures Updates(Some(n), Some(Insert(n, path, value)), path, Some(value))
    decreases |path|, 0
  {
    var prefix, child := n.prefix, n.child;
    var m := CountPrefix(path, prefix);
    if m == |prefix| {
      InsertCorrect(child, path[m..], value);
      UnderPrefix(prefix, child, Some(Insert(child, path[m..], value)), path[m..], Some(value));
      assert path == prefix + path[m..];
    } else if m == 0 {
      InsertDiverging(n, path, value);
    } else {
      InsertSplitting(n, path, value, m);
    }
  }

  /** A key that leaves an extension in the middle of its prefix. */
  lemma {:induction false} InsertSplitting<V>(n: Node<V>, path: Path, value: V, m: nat)
    requires n.Extension? && Canonical(n, |path|) && m == CountPrefix(path, n.prefix) && 0 < m < |n.prefix|
    ensures Updates(Some(n), Some(Insert(n, path, value)), path, Some(value))
  {
    var prefix, child := n.prefix, n.child;
    var inner := Extension(prefix[m..], child);
    assert CountPrefix(path[m..], prefix[m..]) == 0;
    InsertDiverging(inner, path[m..], value);
    UnderPrefix(prefix[..m], inner, Some(Insert(inner, path[m..], value)), path[m..], Some(value));
    assert path == prefix[..m] + path[m..] && prefix == prefix[..m] + prefix[m..];
  }

  /** A key that leaves an extension at its first nibble. */
  lemma {:induction false} InsertDiverging<V>(n: Node<V>, path: Path, value: V)
    requires n.Extension? && Canonical(n, |path|) && path[0] != n.prefix[0]
    ensures Updates(Some(n), Some(Insert(n, path, value)), path, Some(value))
    ensures Insert(n, path, value).Branch?
  {
    var prefix := n.prefix;
    var rest := if |prefix| == 1 then n.child else Extension(prefix[1..], n.child);
    BranchOfTwo(prefix[0], path[0], rest, Leaf(path[1..], value), |path| - 1);
    forall p: Path | |p| == |path|
      ensures Get(Insert(n, path, value), p) == if p == path then Some(value) else Get(n, p)
    {
      SplitHead(p);
      SplitHead(path);
      SplitHead(prefix);
      PrefixSplit([prefix[0]], prefix[1..], p);
    }
  }

  /** Removing erases the path, changes no other path and stays canonical. */
  lemma {:induction false} RemoveCorrect<V>(n: Node<V>, path: Path)
    requires Canonical(n, |path|)
    ensures Updates(Some(n), Remove(n, path), path, None)
    decreases n
  {
    match n
    case Leaf(_, _) =>
    case Extension(prefix, child) =>
      if prefix <= path {
        RemoveCorrect(child, path[|prefix|..]);
        UnderPrefix(prefix, child, Remove(child, path[|prefix|..]), path[|prefix|..], None);
        assert path == prefix + path[|prefix|..];
      }
    case Branch(choices) =>
      if choices[path[0]].Some? { RemoveCorrect(choices[path[0]].value, path[1..]); }
      RemoveBelow(n, path);
  }

  lemma {:induction false} RemoveBelow<V>(n: Node<V>, path: Path)
    requires n.Branch? && Canonical(n, |path|)
    requires var c := n.choices[path[0]]; c.Some? ==> Updates(c, Remove(c.value, path[1..]), path[1..], None)
    ensures Updates(Some(n), Remove(n, path), path, None)
  {
    var c := path[0];
    var after := if n.choices[c].None? then None else Remove(n.choices[c].value, path[1..]);
    var cs := n.choices[c := after];
    SplitHead(path);
    UnderChoice(n.choices, c, after, path[1..], None);
    assert n.choices[c].None? ==> cs == n.choices;
    RestructureIsCollapse(n.choices, c, after);
    CollapseCorrect(cs, |path| - 1);
    forall p: Path | |p| == |path|
      ensures GetRoot(Collapse(cs), p) == if p == path then None else Get(n, p)
    {
      assert GetChoice(cs, p) == if p == [c] + path[1..] then None else GetChoice(n.choices, p);
    }
  }

  lemma RestructureIsCollapse<V>(cs: Choices<V>, c: Nibble, after: Root<V>)
    requires |cs| == 16 && Forking(cs)
    ensures Some(Restructure(cs[c := after])) == Collapse(cs[c := after])
  {
    var i, j :| 0 <= i < j < 16 && cs[i].Some? && cs[j].Some?;
    assert cs[c := after][i].Some? || cs[c := after][j].Some?;
  }

  lemma RootUpdates<V>(t: Root<V>, path: Path, value: V)
    requires CanonicalRoot(t, |path|)
    ensures Updates(t, InsertRoot(t, path, value), path, Some(value))
    ensures Updates(t, RemoveRoot(t, path), path, None)
  {
    if t.Some? {
      InsertCorrect(t.value, path, value);
      RemoveCorrect(t.value, path);
    }
  }
}
