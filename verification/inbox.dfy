/** The inbox: a list of cards that lookups, resolving in any order, put in. */
module Inbox {
  import opened OpsTypes

  datatype Card = Card(id: Id, seqNo: int, missionId: Id, title: string, resolved: bool)

  datatype Action = Upsert(card: Card) | Resolve(id: Id) | ClearForMission(missionId: Id)

  /** The cards with another id, in order. */
  function Others(cards: seq<Card>, id: Id): seq<Card> {
    if cards == [] then []
    else
      var kept := Others(cards[..|cards| - 1], id);
      if cards[|cards| - 1].id == id then kept else kept + [cards[|cards| - 1]]
  }

  function OfOtherMissions(cards: seq<Card>, missionId: Id): seq<Card> {
    if cards == [] then []
    else
      var kept := OfOtherMissions(cards[..|cards| - 1], missionId);
      if cards[|cards| - 1].missionId == missionId then kept else kept + [cards[|cards| - 1]]
  }

  /** Into its place by sequence number, after those with the same number. */
  function Placed(cards: seq<Card>, c: Card): seq<Card> {
    if cards == [] || cards[|cards| - 1].seqNo <= c.seqNo then cards + [c]
    else Placed(cards[..|cards| - 1], c) + [cards[|cards| - 1]]
  }

  /** Stable sort by sequence number. */
  function BySeq(cards: seq<Card>): seq<Card> {
    if cards == [] then [] else Placed(BySeq(cards[..|cards| - 1]), cards[|cards| - 1])
  }

  function MarkedResolved(cards: seq<Card>, id: Id): seq<Card> {
    seq(|cards|, i requires 0 <= i < |cards| =>
      if FirstWith(cards, id) == i then cards[i].(resolved := true) else cards[i])
  }

  function FirstWith(cards: seq<Card>, id: Id): int {
    if cards == [] then -1
    else
      var n := FirstWith(cards[..|cards| - 1], id);
      if n >= 0 then n else if cards[|cards| - 1].id == id then |cards| - 1 else -1
  }

  function Apply(cards: seq<Card>, a: Action): seq<Card> {
    match a
    case Upsert(card) => BySeq(Others(cards, card.id) + [card])
    case Resolve(id) => MarkedResolved(cards, id)
    case ClearForMission(missionId) => OfOtherMissions(cards, missionId)
  }

  function Run(acts: seq<Action>): seq<Card> {
    if acts == [] then [] else Apply(Run(acts[..|acts| - 1]), acts[|acts| - 1])
  }

  ghost predicate InOrder(cards: seq<Card>) {
    forall i, j :: 0 <= i < j < |cards| ==> cards[i].seqNo <= cards[j].seqNo
  }

  ghost predicate UniqueIds(cards: seq<Card>) {
    forall i, j :: 0 <= i < j < |cards| ==> cards[i].id != cards[j].id
  }

  lemma {:induction false} PlacedMeans(cards: seq<Card>, c: Card)
    ensures multiset(Placed(cards, c)) == multiset(cards) + multiset{c}
    ensures InOrder(cards) ==> InOrder(Placed(cards, c))
    ensures forall x :: x in Placed(cards, c) <==> x in cards || x == c
  {
    if cards != [] && cards[|cards| - 1].seqNo > c.seqNo {
      var rest, last := cards[..|cards| - 1], cards[|cards| - 1];
      assert cards == rest + [last];
      PlacedMeans(rest, c);
      if InOrder(cards) {
        forall i | 0 <= i < |Placed(rest, c)| ensures Placed(rest, c)[i].seqNo <= last.seqNo {
          assert Placed(rest, c)[i] in Placed(rest, c);
        }
      }
    }
  }

  lemma {:induction false} BySeqMeans(cards: seq<Card>)
    ensures multiset(BySeq(cards)) == multiset(cards)
    ensures InOrder(BySeq(cards))
    ensures forall x :: x in BySeq(cards) <==> x in cards
  {
    if cards != [] {
      BySeqMeans(cards[..|cards| - 1]);
      PlacedMeans(BySeq(cards[..|cards| - 1]), cards[|cards| - 1]);
      assert cards == cards[..|cards| - 1] + [cards[|cards| - 1]];
    }
  }

  lemma {:induction false} OthersMean(cards: seq<Card>, id: Id)
    ensures forall c :: c in Others(cards, id) <==> c in cards && c.id != id
    ensures UniqueIds(cards) ==> UniqueIds(Others(cards, id))
  {
    if cards != [] {
      OthersMean(cards[..|cards| - 1], id);
      assert cards == cards[..|cards| - 1] + [cards[|cards| - 1]];
    }
  }

  lemma {:induction false} OtherMissionsMean(cards: seq<Card>, missionId: Id)
    ensures forall c :: c in OfOtherMissions(cards, missionId) <==> c in cards && c.missionId != missionId
    ensures UniqueIds(cards) ==> UniqueIds(OfOtherMissions(cards, missionId))
  {
    if cards != [] {
      OtherMissionsMean(cards[..|cards| - 1], missionId);
      assert cards == cards[..|cards| - 1] + [cards[|cards| - 1]];
    }
  }

  lemma {:induction false} OtherMissionsInOrder(cards: seq<Card>, missionId: Id)
    requires InOrder(cards)
    ensures InOrder(OfOtherMissions(cards, missionId))
  {
    if cards != [] {
      var rest, last := cards[..|cards| - 1], cards[|cards| - 1];
      assert cards == rest + [last];
      OtherMissionsInOrder(rest, missionId);
      OtherMissionsMean(rest, missionId);
      var kept := OfOtherMissions(rest, missionId);
      forall i | 0 <= i < |kept| ensures kept[i].seqNo <= last.seqNo {
        assert kept[i] in kept;
      }
    }
  }

  lemma {:induction false} FirstWithMeans(cards: seq<Card>, id: Id)
    ensures var n := FirstWith(cards, id);
      && -1 <= n < |cards|
      && (n == -1 <==> forall c :: c in cards ==> c.id != id)
      && (n >= 0 ==> cards[n].id == id && forall i :: 0 <= i < n ==> cards[i].id != id)
  {
    if cards != [] {
      FirstWithMeans(cards[..|cards| - 1], id);
      assert cards == cards[..|cards| - 1] + [cards[|cards| - 1]];
    }
  }

  /** How often each id occurs decides whether ids are unique, so sorting keeps them so. */
  lemma {:induction false} SameCards(one: seq<Card>, other: seq<Card>)
    requires multiset(one) == multiset(other) && UniqueIds(one)
    ensures UniqueIds(other)
  {
    forall i, j | 0 <= i < j < |other| ensures other[i].id != other[j].id {
      if other[i].id == other[j].id {
        assert other[i] in multiset(one) && other[j] in multiset(one);
        var k :| 0 <= k < |one| && one[k] == other[i];
        var l :| 0 <= l < |one| && one[l] == other[j];
        assert one[k].id == one[l].id;
        assert k == l;
        TwiceCounts(other, i, j);
        OnceCounts(one, k);
      }
    }
  }

  lemma TwiceCounts(cards: seq<Card>, i: nat, j: nat)
    requires i < j < |cards| && cards[i] == cards[j]
    ensures multiset(cards)[cards[i]] >= 2
  {
    assert cards == cards[..j] + [cards[j]] + cards[j + 1..];
    assert cards[i] in cards[..j];
  }

  lemma OnceCounts(cards: seq<Card>, k: nat)
    requires k < |cards| && UniqueIds(cards)
    ensures multiset(cards)[cards[k]] == 1
  {
    assert cards == cards[..k] + [cards[k]] + cards[k + 1..];
    assert cards[k] !in cards[..k] && cards[k] !in cards[k + 1..];
  }

  lemma ApplyKeeps(cards: seq<Card>, a: Action)
    requires InOrder(cards) && UniqueIds(cards)
    ensures InOrder(Apply(cards, a)) && UniqueIds(Apply(cards, a))
  {
    match a
    case Upsert(card) =>
      OthersMean(cards, card.id);
      var merged := Others(cards, card.id) + [card];
      forall i | 0 <= i < |merged| - 1 ensures merged[i].id != card.id {
        assert merged[i] in Others(cards, card.id);
      }
      BySeqMeans(merged);
      SameCards(merged, BySeq(merged));
    case Resolve(id) =>
    case ClearForMission(missionId) =>
      OtherMissionsMean(cards, missionId);
      OtherMissionsInOrder(cards, missionId);
  }

  /** Whatever is done to it, the inbox is in order of sequence numbers and has no card twice. */
  lemma {:induction false} AlwaysInOrder(acts: seq<Action>)
    ensures InOrder(Run(acts)) && UniqueIds(Run(acts))
  {
    hide Apply;
    if acts != [] {
      AlwaysInOrder(acts[..|acts| - 1]);
      ApplyKeeps(Run(acts[..|acts| - 1]), acts[|acts| - 1]);
    }
  }

  // ----- which cards there are

  /** The card last put in under an id, unless its mission has been cleared since. */
  function CardOf(acts: seq<Action>, id: Id): Option<Card> {
    if acts == [] then None
    else
      var before := CardOf(acts[..|acts| - 1], id);
      match acts[|acts| - 1]
      case Upsert(card) => if card.id == id then Some(card) else before
      case Resolve(other) => if other == id && before.Some? then Some(before.value.(resolved := true)) else before
      case ClearForMission(missionId) => if before.Some? && before.value.missionId == missionId then None else before
  }

  lemma ResolvedMeans(cards: seq<Card>, id: Id, c: Card)
    requires UniqueIds(cards)
    ensures c in MarkedResolved(cards, id)
       <==> if c.id != id then c in cards else exists d :: d in cards && d.id == id && c == d.(resolved := true)
  {
    FirstWithMeans(cards, id);
    var n, marked := FirstWith(cards, id), MarkedResolved(cards, id);
    hide FirstWith;
    if c in marked {
      var i :| 0 <= i < |marked| && marked[i] == c;
      assert cards[i] in cards;
    }
    if c.id != id && c in cards {
      var i :| 0 <= i < |cards| && cards[i] == c;
      assert marked[i] == c;
    }
    if d :| d in cards && d.id == id && c == d.(resolved := true) {
      var i :| 0 <= i < |cards| && cards[i] == d;
      assert i == n && marked[i] == c;
    }
  }

  lemma ApplyMeans(cards: seq<Card>, a: Action, c: Card)
    requires UniqueIds(cards)
    ensures c in Apply(cards, a)
       <==> match a
            case Upsert(card) => if c.id == card.id then c == card else c in cards
            case Resolve(id) =>
              if c.id != id then c in cards else exists d :: d in cards && d.id == id && c == d.(resolved := true)
            case ClearForMission(missionId) => c in cards && c.missionId != missionId
  {
    hide BySeq, Others, OfOtherMissions, MarkedResolved, UniqueIds;
    match a
    case Upsert(card) =>
      OthersMean(cards, card.id);
      BySeqMeans(Others(cards, card.id) + [card]);
    case Resolve(id) => ResolvedMeans(cards, id, c);
    case ClearForMission(missionId) => OtherMissionsMean(cards, missionId);
  }

  lemma {:induction false} CardOfId(acts: seq<Action>, id: Id)
    ensures CardOf(acts, id).Some? ==> CardOf(acts, id).value.id == id
  {
    if acts != [] {
      CardOfId(acts[..|acts| - 1], id);
    }
  }

  /** In every run the inbox holds exactly the cards last put in and not cleared since, resolved if marked so since. */
  lemma {:induction false} CardsAre(acts: seq<Action>)
    ensures forall c :: c in Run(acts) <==> CardOf(acts, c.id) == Some(c)
  {
    hide Apply;
    if acts != [] {
      var before, a := acts[..|acts| - 1], acts[|acts| - 1];
      CardsAre(before);
      AlwaysInOrder(before);
      forall c ensures c in Run(acts) <==> CardOf(acts, c.id) == Some(c) {
        CardOfId(before, c.id);
        ApplyMeans(Run(before), a, c);
        if a.Resolve? && a.id == c.id {
          forall d: Card | d.id == a.id ensures d in Run(before) <==> CardOf(before, c.id) == Some(d) {
          }
        }
      }
    }
  }

  // ----- the order of lookups does not matter

  function Upserts(cards: seq<Card>): seq<Action> {
    seq(|cards|, i requires 0 <= i < |cards| => Upsert(cards[i]))
  }

  /** Each id stands for one card, and each sequence number for one id. */
  ghost predicate Consistent(cards: seq<Card>) {
    forall c, d :: c in cards && d in cards && (c.id == d.id || c.seqNo == d.seqNo) ==> c == d
  }

  lemma {:induction false} HoldsAll(cards: seq<Card>)
    requires Consistent(cards)
    ensures forall c :: c in Run(Upserts(cards)) <==> c in cards
  {
    if cards != [] {
      var before, card := cards[..|cards| - 1], cards[|cards| - 1];
      assert cards == before + [card];
      assert Upserts(cards)[..|cards| - 1] == Upserts(before);
      HoldsAll(before);
      var shown := Run(Upserts(before));
      OthersMean(shown, card.id);
      BySeqMeans(Others(shown, card.id) + [card]);
      forall c | c in before && c !in Others(shown, card.id) ensures c == card {
        assert c in shown && c.id == card.id;
      }
    }
  }

  ghost predicate Strict(cards: seq<Card>) {
    forall i, j :: 0 <= i < j < |cards| ==> cards[i].seqNo < cards[j].seqNo
  }

  lemma LastIsGreatest(cards: seq<Card>, c: Card)
    requires Strict(cards) && c in cards
    ensures c.seqNo <= cards[|cards| - 1].seqNo
    ensures c.seqNo == cards[|cards| - 1].seqNo ==> c == cards[|cards| - 1]
  {
  }

  lemma WithoutLast(one: seq<Card>, other: seq<Card>, x: Card)
    requires Strict(one + [x]) && Strict(other + [x]) && forall c :: c in one + [x] <==> c in other + [x]
    ensures Strict(one) && Strict(other) && forall c :: c in one <==> c in other
  {
    forall i | 0 <= i < |one| ensures one[i] in other {
      assert (one + [x])[i] in one + [x] && (one + [x])[i].seqNo < (one + [x])[|one|].seqNo;
    }
    forall i | 0 <= i < |other| ensures other[i] in one {
      assert (other + [x])[i] in other + [x] && (other + [x])[i].seqNo < (other + [x])[|other|].seqNo;
    }
    StrictPrefix(one, x);
    StrictPrefix(other, x);
  }

  lemma StrictPrefix(cards: seq<Card>, x: Card)
    requires Strict(cards + [x])
    ensures Strict(cards)
  {
    forall i, j | 0 <= i < j < |cards| ensures cards[i].seqNo < cards[j].seqNo {
      assert (cards + [x])[i] == cards[i] && (cards + [x])[j] == cards[j];
    }
  }

  lemma BothEmpty(one: seq<Card>, other: seq<Card>)
    requires other != [] && forall c :: c in one <==> c in other
    ensures one != []
  {
    assert other[0] in other;
  }

  /** Cards that differ in sequence number can be listed in order in only one way. */
  lemma {:induction false} StrictIsUnique(one: seq<Card>, other: seq<Card>)
    requires Strict(one) && Strict(other) && forall c :: c in one <==> c in other
    ensures one == other
  {
    if other != [] {
      BothEmpty(one, other);
      var x, y := one[|one| - 1], other[|other| - 1];
      LastIsGreatest(one, y);
      LastIsGreatest(other, x);
      var rest, others := one[..|one| - 1], other[..|other| - 1];
      assert one == rest + [x] && other == others + [x];
      WithoutLast(rest, others, x);
      StrictIsUnique(rest, others);
    } else if one != [] {
      BothEmpty(other, one);
    }
  }

  lemma ConsistentIsStrict(cards: seq<Card>, shown: seq<Card>)
    requires Consistent(cards) && InOrder(shown) && UniqueIds(shown) && forall c :: c in shown <==> c in cards
    ensures Strict(shown)
  {
  }

  /** Cards put in in another order, or more than once, give the same inbox. */
  lemma LookupOrderIsIrrelevant(one: seq<Card>, other: seq<Card>)
    requires Consistent(one) && forall c :: c in one <==> c in other
    ensures Run(Upserts(one)) == Run(Upserts(other))
  {
    assert Consistent(other);
    hide *;
    HoldsAll(one);
    HoldsAll(other);
    AlwaysInOrder(Upserts(one));
    AlwaysInOrder(Upserts(other));
    ConsistentIsStrict(one, Run(Upserts(one)));
    ConsistentIsStrict(other, Run(Upserts(other)));
    StrictIsUnique(Run(Upserts(one)), Run(Upserts(other)));
  }
}
