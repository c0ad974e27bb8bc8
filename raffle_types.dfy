/** The records shared by the raffle hook and its components, and the
    ascending snapshot of a set of raffle numbers that both the purchase
    record and the selection panel show. */
module RaffleTypes {

  datatype Option<+T> = None | Some(value: T)

  /** How one raffle number is shown: free, already sold, or in the
      current user's selection. */
  datatype NumberStatus = Available | Purchased | Selected

  /** The life of a purchase record. */
  datatype PurchaseStatus = Pending | Confirmed | Cancelled

  /** A purchase. Timestamps are milliseconds since the epoch; `amount` is in
      whole currency units. */
  datatype Purchase = Purchase(
    id: string,
    numbers: seq<int>,
    amount: int,
    status: PurchaseStatus,
    createdAt: int,
    confirmedAt: Option<int>,
    pixCode: Option<string>)

  /** The raffle's configuration. */
  datatype RaffleConfig = RaffleConfig(
    pricePerNumber: int,
    totalNumbers: int,
    title: string,
    description: string,
    images: seq<string>,
    drawDate: Option<int>)

  /** A partial configuration: a field that is None is absent and keeps the
      value it overrides. */
  datatype ConfigUpdate = ConfigUpdate(
    pricePerNumber: Option<int>,
    totalNumbers: Option<int>,
    title: Option<string>,
    description: Option<string>,
    images: Option<seq<string>>,
    drawDate: Option<int>)

  const NoUpdate := ConfigUpdate(None, None, None, None, None, None)

  function Override<T>(current: T, update: Option<T>): T {
    match update
    case Some(v) => v
    case None => current
  }

  /** `{ ...prev, ...updates }`: every present field of the update wins,
      every absent one keeps the previous value. */
  function Merge(prev: RaffleConfig, u: ConfigUpdate): (c: RaffleConfig)
    ensures u.pricePerNumber.Some? ==> c.pricePerNumber == u.pricePerNumber.value
    ensures u.pricePerNumber.None? ==> c.pricePerNumber == prev.pricePerNumber
    ensures u.totalNumbers.Some? ==> c.totalNumbers == u.totalNumbers.value
    ensures u.totalNumbers.None? ==> c.totalNumbers == prev.totalNumbers
    ensures u.title.Some? ==> c.title == u.title.value
    ensures u.title.None? ==> c.title == prev.title
    ensures u.description.Some? ==> c.description == u.description.value
    ensures u.description.None? ==> c.description == prev.description
    ensures u.images.Some? ==> c.images == u.images.value
    ensures u.images.None? ==> c.images == prev.images
    ensures u.drawDate.Some? ==> c.drawDate == u.drawDate
    ensures u.drawDate.None? ==> c.drawDate == prev.drawDate
  {
    RaffleConfig(
      Override(prev.pricePerNumber, u.pricePerNumber),
      Override(prev.totalNumbers, u.totalNumbers),
      Override(prev.title, u.title),
      Override(prev.description, u.description),
      Override(prev.images, u.images),
      match u.drawDate case Some(d) => Some(d) case None => prev.drawDate)
  }

  /** Applying the same partial update twice is the same as applying it once,
      and the empty update changes nothing. */
  lemma MergeIdempotent(c: RaffleConfig, u: ConfigUpdate)
    ensures Merge(Merge(c, u), u) == Merge(c, u)
    ensures Merge(c, NoUpdate) == c
  {
  }

  /** The set of elements of a sequence. */
  function Elements(s: seq<int>): set<int> {
    set x | x in s
  }

  predicate StrictlyAscending(s: seq<int>) {
    forall i, j :: 0 <= i < j < |s| ==> s[i] < s[j]
  }

  /** A set with no element is the empty set. */
  lemma NoElementMeansEmpty(s: set<int>)
    ensures (forall x :: x !in s) ==> s == {}
  {
    if forall x :: x !in s {
      assert s == {};
    }
  }

  predicate IsLeast(m: int, s: set<int>) {
    m in s && forall y :: y in s ==> m <= y
  }

  /** Every non-empty finite set of integers has a least element. */
  lemma {:induction false} LeastExists(s: set<int>)
    requires s != {}
    ensures exists m :: IsLeast(m, s)
    decreases |s|
  {
    NoElementMeansEmpty(s);
    var x :| x in s;
    if s == {x} {
      assert IsLeast(x, s);
    } else {
      var rest := s - {x};
      LeastExists(rest);
      var m' :| IsLeast(m', rest);
      var m := if x < m' then x else m';
      forall y | y in s
        ensures m <= y
      {
        if y != x {
          assert y in rest;
        }
      }
      assert IsLeast(m, s);
    }
  }

  /** The least element of a non-empty set. */
  function Least(s: set<int>): (m: int)
    requires s != {}
    ensures IsLeast(m, s)
  {
    LeastExists(s);
    var m :| IsLeast(m, s);
    m
  }

  /** `Array.from(s).sort((a, b) => a - b)`: the elements of `s`, each once,
      in ascending numeric order. */
  function SortedElements(s: set<int>): (r: seq<int>)
    ensures |r| == |s|
    ensures forall x :: x in r <==> x in s
    ensures StrictlyAscending(r)
    decreases |s|
  {
    if s == {} then []
    else
      var m := Least(s);
      [m] + SortedElements(s - {m})
  }

  /** A strictly ascending sequence has no repeated element, so it has as
      many elements as its length. */
  lemma {:induction false} AscendingCardinality(s: seq<int>)
    requires StrictlyAscending(s)
    ensures |Elements(s)| == |s|
  {
    if s != [] {
      AscendingCardinality(s[1..]);
      assert Elements(s) == {s[0]} + Elements(s[1..]);
      assert s[0] !in Elements(s[1..]);
    }
  }

  /** How many numbers the confirmed records of a purchase list hold: the
      count the page header shows. Pending and cancelled records add
      nothing. */
  function ConfirmedNumberCount(purchases: seq<Purchase>): nat {
    if purchases == [] then 0
    else
      var head := if purchases[0].status == Confirmed then |purchases[0].numbers| else 0;
      head + ConfirmedNumberCount(purchases[1..])
  }

  /** The count of a concatenation is the sum of the counts, so appending
      one confirmed record adds exactly its numbers and appending any other
      record adds nothing. */
  lemma {:induction false} ConfirmedNumberCountAppend(ps: seq<Purchase>, qs: seq<Purchase>)
    ensures ConfirmedNumberCount(ps + qs) == ConfirmedNumberCount(ps) + ConfirmedNumberCount(qs)
  {
    if ps == [] {
      assert ps + qs == qs;
    } else {
      assert (ps + qs)[1..] == ps[1..] + qs;
      ConfirmedNumberCountAppend(ps[1..], qs);
    }
  }

  /** Appending one confirmed record raises the count by the length of its
      number list. */
  lemma {:induction false} AppendConfirmedCount(ps: seq<Purchase>, p: Purchase)
    requires p.status == Confirmed
    ensures ConfirmedNumberCount(ps + [p]) == ConfirmedNumberCount(ps) + |p.numbers|
  {
    ConfirmedNumberCountAppend(ps, [p]);
    assert [p][1..] == [];
  }
}
