/** The blob bundles of a transaction pool and their inverted index
    (crates/blockchain/mempool.rs, add_blobs_bundle and remove_blob_bundle). */
module BlobIndex {
  import opened Options

  /** A commitment stands for its versioned hash as well. */
  type Commitment = nat

  /** holders: for each commitment, the transactions that carry it and where. */
  datatype Blobs<!H> = Blobs(bundles: map<H, seq<Commitment>>, holders: map<Commitment, map<H, nat>>)

  function ListOne<H>(holders: map<Commitment, map<H, nat>>, c: Commitment, h: H, i: nat): map<Commitment, map<H, nat>> {
    holders[c := (if c in holders then holders[c] else map[])[h := i]]
  }

  function List<H>(holders: map<Commitment, map<H, nat>>, h: H, cs: seq<Commitment>): map<Commitment, map<H, nat>> {
    if cs == [] then holders else ListOne(List(holders, h, cs[..|cs| - 1]), cs[|cs| - 1], h, |cs| - 1)
  }

  function UnlistOne<H>(holders: map<Commitment, map<H, nat>>, c: Commitment, h: H): map<Commitment, map<H, nat>> {
    if c !in holders then holders
    else if holders[c] - {h} == map[] then holders - {c}
    else holders[c := holders[c] - {h}]
  }

  function Unlist<H>(holders: map<Commitment, map<H, nat>>, h: H, cs: seq<Commitment>): map<Commitment, map<H, nat>> {
    if cs == [] then holders else UnlistOne(Unlist(holders, h, cs[..|cs| - 1]), cs[|cs| - 1], h)
  }

  function AddBundle<H>(b: Blobs<H>, h: H, cs: seq<Commitment>): Blobs<H> {
    Blobs(b.bundles[h := cs], List(b.holders, h, cs))
  }

  function DropBundle<H>(b: Blobs<H>, h: H): Blobs<H> {
    if h !in b.bundles then b else Blobs(b.bundles - {h}, Unlist(b.holders, h, b.bundles[h]))
  }

  // ---------------------------------------------------------------- what the index stands for

  /** Where the index says transaction h carries commitment c. */
  function Place<H>(holders: map<Commitment, map<H, nat>>, c: Commitment, h: H): Option<nat> {
    if c in holders && h in holders[c] then Some(holders[c][h]) else None
  }

  function LastIndex(cs: seq<Commitment>, c: Commitment): (r: Option<nat>)
    ensures r.Some? <==> c in cs
    ensures r.Some? ==> r.value < |cs| && cs[r.value] == c && c !in cs[r.value + 1..]
  {
    if cs == [] then None
    else if cs[|cs| - 1] == c then Some(|cs| - 1)
    else
      assert cs == cs[..|cs| - 1] + [cs[|cs| - 1]];
      LastIndex(cs[..|cs| - 1], c)
  }

  ghost predicate NoEmpty<H>(holders: map<Commitment, map<H, nat>>) {
    forall c | c in holders :: holders[c] != map[]
  }

  /** The index is the exact inverse of the bundles. */
  ghost predicate Inverted<H(!new)>(b: Blobs<H>) {
    && NoEmpty(b.holders)
    && forall c: Commitment, h: H ::
         Place(b.holders, c, h) == if h in b.bundles then LastIndex(b.bundles[h], c) else None
  }

  lemma {:induction false} ListPlace<H>(holders: map<Commitment, map<H, nat>>, h: H, cs: seq<Commitment>, c: Commitment, x: H)
    ensures Place(List(holders, h, cs), c, x) == if x == h && c in cs then LastIndex(cs, c) else Place(holders, c, x)
  {
    if cs != [] {
      var front, last := cs[..|cs| - 1], cs[|cs| - 1];
      assert c in cs <==> c in front || c == last;
      ListPlace(holders, h, front, c, x);
    }
  }

  lemma {:induction false} UnlistPlace<H>(holders: map<Commitment, map<H, nat>>, h: H, cs: seq<Commitment>, c: Commitment, x: H)
    ensures Place(Unlist(holders, h, cs), c, x) == if x == h && c in cs then None else Place(holders, c, x)
  {
    if cs != [] {
      var front, last := cs[..|cs| - 1], cs[|cs| - 1];
      assert c in cs <==> c in front || c == last;
      UnlistPlace(holders, h, front, c, x);
      var mid := Unlist(holders, h, front);
      assert last in mid && x in mid[last] && x != h ==> x in mid[last] - {h};
    }
  }

  lemma {:induction false} ListNoEmpty<H>(holders: map<Commitment, map<H, nat>>, h: H, cs: seq<Commitment>)
    requires NoEmpty(holders)
    ensures NoEmpty(List(holders, h, cs)) && NoEmpty(Unlist(holders, h, cs))
  {
    if cs != [] {
      var front, last := cs[..|cs| - 1], cs[|cs| - 1];
      ListNoEmpty(holders, h, front);
      assert h in List(holders, h, cs)[last];
    }
  }

  /** Adding a bundle keeps the index exact if and only if it carries every commitment of the
      bundle it overwrites, if any; the insertion never clears the old entries. */
  lemma {:induction false} AddInverts<H(!new)>(b: Blobs<H>, h: H, cs: seq<Commitment>)
    requires Inverted(b)
    ensures Inverted(AddBundle(b, h, cs)) <==> (h in b.bundles ==> forall c | c in b.bundles[h] :: c in cs)
  {
    var after := AddBundle(b, h, cs);
    ListNoEmpty(b.holders, h, cs);
    forall c: Commitment, x: H { ListPlace(b.holders, h, cs, c, x); }
    if h in b.bundles && exists c | c in b.bundles[h] :: c !in cs {
      var c :| c in b.bundles[h] && c !in cs;
      assert Place(after.holders, c, h) == LastIndex(b.bundles[h], c) && LastIndex(cs, c).None?;
    }
  }

  lemma {:induction false} DropInverts<H(!new)>(b: Blobs<H>, h: H)
    requires Inverted(b)
    ensures Inverted(DropBundle(b, h))
  {
    if h in b.bundles {
      ListNoEmpty(b.holders, h, b.bundles[h]);
      forall c: Commitment, x: H { UnlistPlace(b.holders, h, b.bundles[h], c, x); }
    }
  }

  /** The places determine an index without empty entries. */
  lemma {:induction false} PlacesDetermine<H(!new)>(a: map<Commitment, map<H, nat>>, b: map<Commitment, map<H, nat>>)
    requires NoEmpty(a) && NoEmpty(b) && forall c: Commitment, h: H :: Place(a, c, h) == Place(b, c, h)
    ensures a == b
  {
    forall c: Commitment
      ensures c in a <==> c in b
      ensures c in a && c in b ==> a[c] == b[c]
    {
      if c in a { var h :| h in a[c]; assert Place(a, c, h).Some?; }
      if c in b { var h :| h in b[c]; assert Place(b, c, h).Some?; }
      if c in a && c in b {
        forall h: H ensures (h in a[c] <==> h in b[c]) && (h in a[c] ==> a[c][h] == b[c][h]) {
          assert Place(a, c, h) == Place(b, c, h);
        }
      }
    }
  }

  /** An exact index is determined by the bundles. */
  lemma {:induction false} BundlesDetermine<H(!new)>(a: Blobs<H>, b: Blobs<H>)
    requires Inverted(a) && Inverted(b) && a.bundles == b.bundles
    ensures a == b
  {
    PlacesDetermine(a.holders, b.holders);
  }

  /** Rolling back a bundle that was just added leaves no trace. */
  lemma {:induction false} RollBack<H(!new)>(b: Blobs<H>, h: H, cs: seq<Commitment>)
    requires Inverted(b) && h !in b.bundles
    ensures DropBundle(AddBundle(b, h, cs), h) == b
  {
    var after := DropBundle(AddBundle(b, h, cs), h);
    AddInverts(b, h, cs);
    DropInverts(AddBundle(b, h, cs), h);
    assert after.bundles == b.bundles;
    BundlesDetermine(after, b);
  }

  // ---------------------------------------------------------------- the loops

  method ListBundle<H(==, !new)>(holders: map<Commitment, map<H, nat>>, h: H, cs: seq<Commitment>) returns (r: map<Commitment, map<H, nat>>)
    ensures r == List(holders, h, cs)
  {
    r := holders;
    for i := 0 to |cs|
      invariant r == List(holders, h, cs[..i])
    {
      assert cs[..i + 1][..i] == cs[..i];
      r := ListOne(r, cs[i], h, i);
    }
    assert cs[..|cs|] == cs;
  }

  method UnlistBundle<H(==, !new)>(holders: map<Commitment, map<H, nat>>, h: H, cs: seq<Commitment>) returns (r: map<Commitment, map<H, nat>>)
    ensures r == Unlist(holders, h, cs)
  {
    r := holders;
    for i := 0 to |cs|
      invariant r == Unlist(holders, h, cs[..i])
    {
      assert cs[..i + 1][..i] == cs[..i];
      r := UnlistOne(r, cs[i], h);
    }
    assert cs[..|cs|] == cs;
  }
}
