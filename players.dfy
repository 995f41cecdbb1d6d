/** The ordered player list of a lobby and the list operations the handlers use on it. */
module Players {
  import opened Wrappers

  /** A connection (socket) identifier. */
  type Id = string

  datatype Player = Player(id: Id, name: string, balance: int)

  /** Balance given to every player on create and join. */
  const StartingBalance: int := 1000

  function Ids(ps: seq<Player>): seq<Id> {
    seq(|ps|, i requires 0 <= i < |ps| => ps[i].id)
  }

  /** Position of the first occurrence of `id`, as `Array.prototype.find` picks it. */
  function IndexOf(ids: seq<Id>, id: Id): (r: Option<nat>)
    ensures r.None? <==> id !in ids
    ensures r.Some? ==> r.value < |ids| && ids[r.value] == id && id !in ids[..r.value]
  {
    if ids == [] then None
    else if ids[0] == id then Some(0)
    else match IndexOf(ids[1..], id)
      case None => None
      case Some(k) =>
        assert ids[..k + 1] == [ids[0]] + ids[1..][..k];
        Some(k + 1)
  }

  /** `players.find(p => p.id === id)`, as an index. */
  function Find(ps: seq<Player>, id: Id): Option<nat> {
    IndexOf(Ids(ps), id)
  }

  /** Balances never drop below zero. */
  predicate NonNegative(ps: seq<Player>) {
    forall i :: 0 <= i < |ps| ==> ps[i].balance >= 0
  }

  /** Sum of all balances. */
  function Total(ps: seq<Player>): int {
    if ps == [] then 0 else Total(ps[..|ps| - 1]) + ps[|ps| - 1].balance
  }

  /** Adds `delta` to the balance of the player `find` returns for `id`; no player, no change. */
  function Adjust(ps: seq<Player>, id: Id, delta: int): (r: seq<Player>)
    ensures |r| == |ps| && Ids(r) == Ids(ps)
    ensures forall j :: 0 <= j < |ps| ==> r[j].name == ps[j].name
    ensures forall j :: 0 <= j < |ps| ==>
      r[j].balance == ps[j].balance + (if Find(ps, id) == Some(j) then delta else 0)
  {
    match Find(ps, id)
    case None => ps
    case Some(i) => ps[i := ps[i].(balance := ps[i].balance + delta)]
  }

  /** A debit the balance covers keeps every balance non-negative and every name. */
  lemma DebitKeeps(ps: seq<Player>, id: Id, amount: int)
    requires NonNegative(ps) && Find(ps, id).Some? && ps[Find(ps, id).value].balance >= amount
    ensures NonNegative(Adjust(ps, id, -amount))
    ensures forall j :: 0 <= j < |ps| ==> Adjust(ps, id, -amount)[j].name == ps[j].name
  {
    var k := Find(ps, id).value;
    var r := Adjust(ps, id, -amount);
    assert r == ps[k := ps[k].(balance := ps[k].balance - amount)];
  }

  /** Replacing one record changes the total by the difference of the two balances. */
  lemma {:induction false} TotalUpdate(ps: seq<Player>, j: nat, p: Player)
    requires j < |ps|
    ensures Total(ps[j := p]) == Total(ps) - ps[j].balance + p.balance
  {
    var n := |ps| - 1;
    var q := ps[j := p];
    assert q[..n] == if j == n then ps[..n] else ps[..n][j := p];
    if j < n {
      TotalUpdate(ps[..n], j, p);
    }
  }

  /** `Adjust` moves the total by `delta` exactly when the id is present. */
  lemma TotalAdjust(ps: seq<Player>, id: Id, delta: int)
    ensures Total(Adjust(ps, id, delta)) == Total(ps) + (if id in Ids(ps) then delta else 0)
  {
    match Find(ps, id)
    case None =>
    case Some(i) => TotalUpdate(ps, i, ps[i].(balance := ps[i].balance + delta));
  }

  /** `players.filter(p => p.id !== id)`. */
  function Remove(ps: seq<Player>, id: Id): (r: seq<Player>)
    ensures |r| <= |ps|
  {
    if ps == [] then [] else (if ps[0].id == id then [] else [ps[0]]) + Remove(ps[1..], id)
  }

  /** Only players of `ps`, and none of connection `id`, are left. */
  lemma {:induction false} RemoveDrops(ps: seq<Player>, id: Id)
    ensures forall i :: 0 <= i < |Remove(ps, id)| ==> Remove(ps, id)[i].id != id && Remove(ps, id)[i] in ps
  {
    if ps != [] {
      RemoveDrops(ps[1..], id);
      assert forall p :: p in ps[1..] ==> p in ps;
    }
  }

  /** Every player of another connection is kept. */
  lemma {:induction false} RemoveKeeps(ps: seq<Player>, id: Id)
    ensures forall i :: 0 <= i < |ps| && ps[i].id != id ==> ps[i] in Remove(ps, id)
  {
    if ps != [] {
      RemoveKeeps(ps[1..], id);
      assert forall i :: 1 <= i < |ps| ==> ps[i] == ps[1..][i - 1];
    }
  }

  /** Filtering distributes over concatenation: the kept players stay in their order. */
  lemma {:induction false} RemoveAppend(a: seq<Player>, b: seq<Player>, id: Id)
    ensures Remove(a + b, id) == Remove(a, id) + Remove(b, id)
  {
    if a == [] {
      assert a + b == b;
    } else {
      assert (a + b)[0] == a[0];
      assert (a + b)[1..] == a[1..] + b;
      RemoveAppend(a[1..], b, id);
      var head := if a[0].id == id then [] else [a[0]];
      assert Remove(a + b, id) == head + Remove(a[1..] + b, id);
      assert Remove(a, id) == head + Remove(a[1..], id);
    }
  }

  /** A list without `id` is left as it is. */
  lemma {:induction false} RemoveAbsent(ps: seq<Player>, id: Id)
    requires forall i :: 0 <= i < |ps| ==> ps[i].id != id
    ensures Remove(ps, id) == ps
  {
    if ps != [] {
      RemoveAbsent(ps[1..], id);
      assert [ps[0]] + ps[1..] == ps;
    }
  }

  /** Adds `amount` once per id of `ws`, as the `forEach` over the tied winners does. */
  function CreditAll(ps: seq<Player>, ws: seq<Id>, amount: int): (r: seq<Player>)
    ensures |r| == |ps| && Ids(r) == Ids(ps)
  {
    if ws == [] then ps else Adjust(CreditAll(ps, ws[..|ws| - 1], amount), ws[|ws| - 1], amount)
  }

  predicate Distinct(ids: seq<Id>) {
    forall i, j :: 0 <= i < j < |ids| ==> ids[i] != ids[j]
  }

  lemma DistinctSnoc(ids: seq<Id>, x: Id)
    requires Distinct(ids) && x !in ids
    ensures Distinct(ids + [x])
  {
    var r := ids + [x];
    forall i, j | 0 <= i < j < |r|
      ensures r[i] != r[j]
    {
      if j == |ids| {
        assert r[i] == ids[i];
      }
    }
  }

  /** Number of ids of `ws` that still have a player in `ps`. */
  function Present(ps: seq<Player>, ws: seq<Id>): (k: nat)
    ensures k <= |ws|
  {
    if ws == [] then 0
    else Present(ps, ws[..|ws| - 1]) + (if ws[|ws| - 1] in Ids(ps) then 1 else 0)
  }

  /** With distinct ids, each listed id's first player gains `amount` once; nobody else changes. */
  lemma {:induction false} CreditAllAt(ps: seq<Player>, ws: seq<Id>, amount: int)
    requires Distinct(ws)
    ensures forall j :: 0 <= j < |ps| ==> CreditAll(ps, ws, amount)[j].name == ps[j].name
    ensures forall j :: 0 <= j < |ps| ==>
      CreditAll(ps, ws, amount)[j].balance
        == ps[j].balance + (if ps[j].id in ws && Find(ps, ps[j].id) == Some(j) then amount else 0)
  {
    if ws != [] {
      var n := |ws| - 1;
      var w := ws[n];
      var prev := CreditAll(ps, ws[..n], amount);
      CreditAllAt(ps, ws[..n], amount);
      assert Find(prev, w) == Find(ps, w);
      forall j | 0 <= j < |ps|
        ensures CreditAll(ps, ws, amount)[j].balance
          == ps[j].balance + (if ps[j].id in ws && Find(ps, ps[j].id) == Some(j) then amount else 0)
      {
        assert ps[j].id in ws <==> ps[j].id in ws[..n] || ps[j].id == w by {
          assert ws == ws[..n] + [w];
        }
        if Find(ps, w) == Some(j) {
          assert ps[j].id == w && w !in ws[..n];
        }
      }
    }
  }

  lemma MulSucc(a: int, k: int)
    ensures a * (k + 1) == a * k + a
  {
  }

  /** Crediting moves the total by `amount` for every listed id still present. */
  lemma {:induction false} CreditAllTotal(ps: seq<Player>, ws: seq<Id>, amount: int)
    ensures Total(CreditAll(ps, ws, amount)) == Total(ps) + amount * Present(ps, ws)
  {
    if ws != [] {
      var n := |ws| - 1;
      var w := ws[n];
      var prev := CreditAll(ps, ws[..n], amount);
      var k := Present(ps, ws[..n]);
      CreditAllTotal(ps, ws[..n], amount);
      TotalAdjust(prev, w, amount);
      assert CreditAll(ps, ws, amount) == Adjust(prev, w, amount);
      MulSucc(amount, k);
      if w in Ids(ps) {
        calc {
          Total(CreditAll(ps, ws, amount));
          Total(prev) + amount;
          Total(ps) + amount * (k + 1);
        }
      }
    }
  }

}
