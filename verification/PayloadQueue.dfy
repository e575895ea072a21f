/** The queue a payload is filled from: each sender's transactions in nonce order, the senders'
    next ones ordered by price (crates/blockchain/payload.rs, TransactionQueue). */
module PayloadQueue {
  import opened Options
  import Ledger

  type Address = nat

  /** tip is what the transaction pays above the block's base fee, None when it cannot pay it. */
  datatype Tx = Tx(
    id: nat,
    sender: Address,
    nonce: nat,
    privileged: bool,
    isProtected: bool,
    isFrame: bool,
    isBlob: bool,
    expiry: Option<nat>,
    gasLimit: nat,
    tip: Option<nat>,
    time: nat,
    size: nat,
    blobs: nat)

  datatype Head = Head(tx: Tx, tip: nat)

  datatype Ordering = Less | Equal | Greater

  function Compare(x: nat, y: nat): Ordering { if x < y then Less else if x == y then Equal else Greater }

  /** Privileged transactions come first, by nonce; the others by highest tip, then by age. */
  function Cmp(a: Head, b: Head): Ordering {
    if a.tx.privileged && b.tx.privileged then Compare(a.tx.nonce, b.tx.nonce)
    else if a.tx.privileged then Less
    else if b.tx.privileged then Greater
    else if b.tip == a.tip then Compare(a.tx.time, b.tx.time)
    else Compare(b.tip, a.tip)
  }

  predicate Leq(a: Head, b: Head) { Cmp(a, b) != Greater }

  /** The comparison is a total preorder, and its two directions agree. */
  lemma {:induction false} CmpOrders(a: Head, b: Head, c: Head)
    ensures Leq(a, b) || Leq(b, a)
    ensures Leq(a, b) && Leq(b, c) ==> Leq(a, c)
    ensures Cmp(a, b) == Less <==> Cmp(b, a) == Greater
    ensures Cmp(a, b) == Equal <==> Leq(a, b) && Leq(b, a)
  {}

  lemma {:induction false} LessTrans(a: Head, b: Head, c: Head)
    requires Leq(b, c)
    ensures Leq(a, b) ==> Leq(a, c)
    ensures Cmp(a, b) == Less ==> Cmp(a, c) == Less
  {
    CmpOrders(a, b, c);
    CmpOrders(b, c, a);
    CmpOrders(a, c, a);
    CmpOrders(a, b, a);
  }

  ghost predicate Sorted(heads: seq<Head>) {
    forall i, j | 0 <= i < j < |heads| :: Leq(heads[i], heads[j])
  }

  lemma {:induction false} SortedTail(heads: seq<Head>)
    requires Sorted(heads) && heads != []
    ensures Sorted(heads[1..])
  {}

  // ---------------------------------------------------------------- keeping the heads sorted

  /** A place for a head between those before and those after it, found by halving. */
  method Place(heads: seq<Head>, head: Head) returns (index: nat)
    requires Sorted(heads)
    ensures index <= |heads|
    ensures forall i | 0 <= i < index :: Leq(heads[i], head)
    ensures forall i | index <= i < |heads| :: Leq(head, heads[i])
  {
    var lo, hi := 0, |heads|;
    while lo < hi
      invariant lo <= hi <= |heads|
      invariant forall i | 0 <= i < lo :: Leq(heads[i], head)
      invariant forall i | hi <= i < |heads| :: Leq(head, heads[i])
    {
      var mid := (lo + hi) / 2;
      CmpOrders(heads[mid], head, head);
      forall i | 0 <= i <= mid && Leq(heads[mid], head) ensures Leq(heads[i], head) { CmpOrders(heads[i], heads[mid], head); }
      forall i | mid <= i < |heads| && Leq(head, heads[mid]) ensures Leq(head, heads[i]) { CmpOrders(head, heads[mid], heads[i]); }
      match Cmp(heads[mid], head) {
        case Equal => return mid;
        case Less => lo := mid + 1;
        case Greater => hi := mid;
      }
    }
    return lo;
  }

  lemma {:induction false} InsertKeepsSorted(heads: seq<Head>, index: nat, head: Head)
    requires Sorted(heads) && index <= |heads|
    requires forall i | 0 <= i < index :: Leq(heads[i], head)
    requires forall i | index <= i < |heads| :: Leq(head, heads[i])
    ensures Sorted(heads[..index] + [head] + heads[index..])
  {}

  // ---------------------------------------------------------------- the queue

  function Rest(txs: map<Address, seq<Tx>>, a: Address): seq<Tx> { if a in txs then txs[a] else [] }

  /** A sender's transactions: its own, priced, with rising nonces. */
  ghost predicate Line(a: Address, txs: seq<Tx>) {
    && (forall i | 0 <= i < |txs| :: txs[i].sender == a && txs[i].tip.Some?)
    && (forall i, j | 0 <= i < j < |txs| :: txs[i].nonce < txs[j].nonce)
  }

  ghost predicate Heads(heads: seq<Head>, txs: map<Address, seq<Tx>>, contents: map<Address, seq<Tx>>) {
    && (forall i | 0 <= i < |heads| :: HeadAt(heads[i], txs, contents))
    && (forall i, j | 0 <= i < j < |heads| :: heads[i].tx.sender != heads[j].tx.sender)
    && (forall a | a in contents :: Leads(heads, a))
  }

  ghost predicate Leads(heads: seq<Head>, a: Address) { exists i :: 0 <= i < |heads| && heads[i].tx.sender == a }

  ghost predicate HeadAt(h: Head, txs: map<Address, seq<Tx>>, contents: map<Address, seq<Tx>>) {
    && h.tx.sender in contents && contents[h.tx.sender] == [h.tx] + Rest(txs, h.tx.sender)
    && h.tx.tip == Some(h.tip)
  }

  ghost function Lengths(contents: map<Address, seq<Tx>>): map<Address, nat> {
    map a | a in contents :: |contents[a]|
  }

  /** How many transactions are waiting. */
  ghost function Waiting(contents: map<Address, seq<Tx>>): nat { Ledger.SumOf(Lengths(contents)) }

  lemma {:induction false} WaitingWithout(contents: map<Address, seq<Tx>>, a: Address)
    requires a in contents
    ensures Waiting(contents) == Waiting(contents - {a}) + |contents[a]|
  {
    Ledger.SumRemove(Lengths(contents), a);
    assert Lengths(contents) - {a} == Lengths(contents - {a});
  }

  lemma {:induction false} WaitingShift(contents: map<Address, seq<Tx>>, a: Address)
    requires a in contents && contents[a] != []
    ensures Waiting(Shifted(contents, a)) + 1 == Waiting(contents)
  {
    WaitingWithout(contents, a);
    if |contents[a]| > 1 {
      WaitingWithout(Shifted(contents, a), a);
      assert Shifted(contents, a) - {a} == contents - {a};
    }
  }

  /** The first of a sender's transactions taken off. */
  function Shifted(contents: map<Address, seq<Tx>>, a: Address): map<Address, seq<Tx>>
    requires a in contents && contents[a] != []
  {
    if |contents[a]| == 1 then contents - {a} else contents[a := contents[a][1..]]
  }

  predicate Grouped(a: Address, line: seq<Tx>) { line != [] && line[0].sender == a }

  /** The first transaction of a line can be priced. */
  predicate Opens(line: seq<Tx>) { line != [] && line[0].tip.Some? }

  lemma {:induction false} OneMore<K, V>(m: map<K, V>, rest: set<K>, k: K)
    requires k in m && k in rest
    ensures (m - rest)[k := m[k]] == m - (rest - {k})
  {}

  class TransactionQueue {
    var heads: seq<Head>
    var txs: map<Address, seq<Tx>>
    /** What each sender still has waiting, its head first. */
    ghost var contents: map<Address, seq<Tx>>

    ghost predicate Valid()
      reads this
    {
      Shape() && forall a | a in contents :: Line(a, contents[a])
    }

    constructor ()
      ensures Valid() && contents == map[] && heads == []
    {
      heads, txs, contents := [], map[], map[];
    }

    /** The heads are sorted and stand for the contents. */
    ghost predicate Shape()
      reads this
    {
      Sorted(heads) && Heads(heads, txs, contents)
    }

    /** Puts a sender's line in: its first transaction becomes a head at its place. */
    method Put(line: seq<Tx>)
      requires Shape() && line != [] && line[0].tip.Some? && line[0].sender !in contents
      modifies this
      ensures Shape() && contents == old(contents)[line[0].sender := line]
    {
      var head := Head(line[0], line[0].tip.value);
      var index := Place(heads, head);
      InsertKeepsSorted(heads, index, head);
      HeadsInsert(heads, txs, contents, index, head, line);
      heads := heads[..index] + [head] + heads[index..];
      txs := txs[line[0].sender := line[1..]];
      contents := contents[line[0].sender := line];
    }

    /** Takes the first transaction of each sender as its head and sorts the heads. A head that
        cannot be priced fails the whole construction. */
    static method Build(groups: map<Address, seq<Tx>>) returns (q: Option<TransactionQueue>)
      requires forall a | a in groups :: Grouped(a, groups[a])
      ensures q.Some? ==> fresh(q.value) && q.value.Shape() && q.value.contents == groups
      ensures q.Some? <==> forall a | a in groups :: Opens(groups[a])
    {
      var r := new TransactionQueue();
      var rest := groups.Keys;
      while rest != {}
        invariant fresh(r) && r.Shape() && rest <= groups.Keys && r.contents == groups - rest
        invariant forall a | a in groups && a !in rest :: Opens(groups[a])
        decreases |rest|
      {
        var a :| a in rest;
        assert Grouped(a, groups[a]);
        if !Opens(groups[a]) { return None; }
        r.Put(groups[a]);
        OneMore(groups, rest, a);
        rest := rest - {a};
      }
      assert groups - {} == groups;
      return Some(r);
    }

    method Clear()
      modifies this
      ensures Valid() && contents == map[] && heads == []
    {
      heads, txs, contents := [], map[], map[];
    }

    /** The head no other head precedes. */
    function Peek(): (h: Option<Head>)
      reads this
      requires Valid()
      ensures h.None? <==> contents == map[]
      ensures h.Some? ==>
                && HeadAt(h.value, txs, contents) && contents[h.value.tx.sender][0] == h.value.tx
                && forall i | 0 <= i < |heads| :: Leq(h.value, heads[i])
    {
      if heads == [] then
        assert contents == map[] by { assert contents.Keys == {}; }
        None
      else
        CmpOrders(heads[0], heads[0], heads[0]);
        Some(heads[0])
    }

    /** Drops the head and everything else its sender has waiting. */
    method Pop()
      requires Valid()
      modifies this
      ensures Valid()
      ensures contents == if old(heads) == [] then old(contents) else old(contents) - {old(heads)[0].tx.sender}
      ensures old(heads) != [] ==> Waiting(contents) < old(Waiting(contents))
    {
      if heads != [] {
        var a := heads[0].tx.sender;
        WaitingWithout(contents, a);
        HeadsTail(heads, txs, contents);
        heads := heads[1..];
        txs := txs - {a};
        contents := contents - {a};
      }
    }

    /** Drops the head and makes its sender's next transaction a head in its place. */
    method Shift() returns (ok: bool)
      requires Valid() && heads != []
      modifies this
      ensures ok && Valid()
      ensures var a := old(heads)[0].tx.sender;
              a in old(contents) && old(contents)[a] != [] && contents == Shifted(old(contents), a)
      ensures Waiting(contents) + 1 == old(Waiting(contents))
    {
      WaitingShift(contents, heads[0].tx.sender);
      ShiftedLines(contents, heads[0].tx.sender);
      var a, rest := DropHead();
      if rest != [] {
        if rest[0].tip.None? { return false; }
        Put(rest);
      }
      return true;
    }

    /** Takes the first head out, and its sender with it; what the sender has left comes back. */
    method DropHead() returns (a: Address, rest: seq<Tx>)
      requires Valid() && heads != []
      modifies this`heads, this`contents
      ensures Shape() && a == old(heads)[0].tx.sender && a in old(contents) && contents == old(contents) - {a}
      ensures old(contents)[a] == [old(heads)[0].tx] + rest
      ensures rest != [] ==> rest[0].sender == a && rest[0].tip.Some?
    {
      a, rest := heads[0].tx.sender, Rest(txs, heads[0].tx.sender);
      HeadsTail(heads, txs, contents);
      FirstLine(heads, txs, contents);
      SortedTail(heads);
      heads, contents := heads[1..], contents - {a};
    }
  }

  // ---------------------------------------------------------------- heads and lines

  /** The first head's line: the head, then what its sender has left. */
  lemma {:induction false} FirstLine(heads: seq<Head>, txs: map<Address, seq<Tx>>, contents: map<Address, seq<Tx>>)
    requires Heads(heads, txs, contents) && heads != [] && forall a | a in contents :: Line(a, contents[a])
    ensures var a, rest := heads[0].tx.sender, Rest(txs, heads[0].tx.sender);
            a in contents && contents[a] == [heads[0].tx] + rest && (rest != [] ==> rest[0].sender == a && rest[0].tip.Some?)
  {
    var a, rest := heads[0].tx.sender, Rest(txs, heads[0].tx.sender);
    assert HeadAt(heads[0], txs, contents) && Line(a, contents[a]);
    assert rest != [] ==> rest[0] == contents[a][1];
  }

  /** Lines stay lines when the first transaction of one is taken off. */
  lemma {:induction false} ShiftedLines(contents: map<Address, seq<Tx>>, a: Address)
    requires a in contents && contents[a] != [] && forall b | b in contents :: Line(b, contents[b])
    ensures forall b | b in Shifted(contents, a) :: Line(b, Shifted(contents, a)[b])
    ensures forall x: Tx, rest: seq<Tx> | contents[a] == [x] + rest ::
              Shifted(contents, a) == if rest == [] then contents - {a} else (contents - {a})[a := rest]
  {
    forall x: Tx, rest: seq<Tx> | contents[a] == [x] + rest
      ensures Shifted(contents, a) == if rest == [] then contents - {a} else (contents - {a})[a := rest]
    {
      assert contents[a][1..] == rest;
    }
  }

  lemma {:induction false} HeadsTail(heads: seq<Head>, txs: map<Address, seq<Tx>>, contents: map<Address, seq<Tx>>)
    requires Heads(heads, txs, contents) && heads != []
    ensures var a := heads[0].tx.sender;
            Heads(heads[1..], txs - {a}, contents - {a}) && Heads(heads[1..], txs, contents - {a})
  {
    var a := heads[0].tx.sender;
    forall i | 0 <= i < |heads[1..]| ensures HeadAt(heads[1..][i], txs - {a}, contents - {a}) && HeadAt(heads[1..][i], txs, contents - {a}) {
      assert HeadAt(heads[i + 1], txs, contents);
    }
    forall b | b in contents - {a} ensures Leads(heads[1..], b) {
      assert Leads(heads, b);
      var i :| 0 <= i < |heads| && heads[i].tx.sender == b;
      assert heads[1..][i - 1].tx.sender == b;
    }
  }

  function Inserted(heads: seq<Head>, index: nat, head: Head): seq<Head> requires index <= |heads| {
    heads[..index] + [head] + heads[index..]
  }

  lemma {:induction false} InsertedHead(heads: seq<Head>, txs: map<Address, seq<Tx>>, contents: map<Address, seq<Tx>>, index: nat, head: Head, line: seq<Tx>, i: nat)
    requires Heads(heads, txs, contents) && index <= |heads| && head.tx.sender !in contents && i <= |heads|
    requires line != [] && line[0] == head.tx && head.tx.tip == Some(head.tip)
    ensures var a, h := head.tx.sender, Inserted(heads, index, head)[i];
            && HeadAt(h, txs[a := line[1..]], contents[a := line])
            && (h.tx.sender == a <==> i == index)
  {
    if i == index {
      assert line == [line[0]] + line[1..];
    } else {
      assert HeadAt(if i < index then heads[i] else heads[i - 1], txs, contents);
    }
  }

  lemma {:induction false} InsertedLeads(heads: seq<Head>, index: nat, head: Head, b: Address)
    requires index <= |heads|
    ensures Leads(heads, b) || head.tx.sender == b ==> Leads(Inserted(heads, index, head), b)
  {
    var more := Inserted(heads, index, head);
    if Leads(heads, b) {
      var i :| 0 <= i < |heads| && heads[i].tx.sender == b;
      assert more[if i < index then i else i + 1].tx.sender == b;
    } else if head.tx.sender == b {
      assert more[index].tx.sender == b;
    }
  }

  lemma {:induction false} HeadsInsert(heads: seq<Head>, txs: map<Address, seq<Tx>>, contents: map<Address, seq<Tx>>, index: nat, head: Head, line: seq<Tx>)
    requires Heads(heads, txs, contents) && index <= |heads| && head.tx.sender !in contents
    requires line != [] && line[0] == head.tx && head.tx.tip == Some(head.tip)
    ensures var a := head.tx.sender;
            Heads(Inserted(heads, index, head), txs[a := line[1..]], contents[a := line])
  {
    var a, more := head.tx.sender, Inserted(heads, index, head);
    forall i | 0 <= i < |more|
      ensures HeadAt(more[i], txs[a := line[1..]], contents[a := line]) && (more[i].tx.sender == a <==> i == index)
    {
      InsertedHead(heads, txs, contents, index, head, line, i);
    }
    forall i, j | 0 <= i < j < |more| ensures more[i].tx.sender != more[j].tx.sender {
      if i != index && j != index {
        assert more[i] == heads[if i < index then i else i - 1] && more[j] == heads[if j < index then j else j - 1];
      }
    }
    forall b | b in contents[a := line] ensures Leads(more, b) { InsertedLeads(heads, index, head, b); }
  }
}
