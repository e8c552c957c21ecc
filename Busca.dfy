/** The A* search of `Planejador::calculaCaminho`: search nodes, the open
    list kept in ascending total cost, the closed vector, successor expansion
    and path reconstruction. */
module Busca {
  import opened Ids
  import opened Mapa
  import opened Caminhos

  /** A search node (`Noh`): the point reached, the route used to reach it
      (the sentinel for the origin), the cost so far, the heuristic estimate
      to the destination and their sum. */
  datatype Noh = Noh(idPt: string, idRt: string, custoPassado: real, custoFuturo: real, custoTotal: real)

  /** `std::find` over nodes, comparing each node's point with `id`. */
  function FindNoh(s: seq<Noh>, id: string): (k: nat)
    ensures k <= |s|
    ensures k < |s| ==> s[k].idPt == id
    ensures forall j :: 0 <= j < k ==> s[j].idPt != id
  {
    if |s| == 0 then 0
    else if s[0].idPt == id then 0
    else 1 + FindNoh(s[1..], id)
  }

  /** Some node of `s` is at point `id` (`find(...) != end()`). */
  predicate Has(s: seq<Noh>, id: string)
  {
    FindNoh(s, id) < |s|
  }

  lemma HasAt(s: seq<Noh>, i: nat, id: string)
    requires i < |s| && s[i].idPt == id
    ensures Has(s, id) && FindNoh(s, id) <= i
  {
  }

  /** A node appended at the back does not change where earlier points are
      found. */
  lemma HasAppend(s: seq<Noh>, x: Noh, id: string)
    ensures Has(s + [x], id) <==> Has(s, id) || x.idPt == id
    ensures Has(s, id) ==> FindNoh(s + [x], id) == FindNoh(s, id)
  {
    var t := s + [x];
    if Has(s, id) {
      HasAt(t, FindNoh(s, id), id);
    } else if x.idPt == id {
      HasAt(t, |s|, id);
    } else {
      assert forall j :: 0 <= j < |t| ==> t[j].idPt != id by {
        forall j | 0 <= j < |t| ensures t[j].idPt != id {
          if j < |s| { assert t[j] == s[j]; }
        }
      }
    }
  }

  /** Ascending total cost: the order `upper_bound` relies on. */
  predicate Sorted(s: seq<Noh>)
  {
    forall i, j :: 0 <= i < j < |s| ==> s[i].custoTotal <= s[j].custoTotal
  }

  /** No two nodes at the same point. */
  predicate Distinct(s: seq<Noh>)
  {
    forall i, j :: 0 <= i < j < |s| ==> s[i].idPt != s[j].idPt
  }

  lemma FindNohDistinct(s: seq<Noh>, i: nat)
    requires Distinct(s) && i < |s|
    ensures FindNoh(s, s[i].idPt) == i
  {
    HasAt(s, i, s[i].idPt);
  }

  /** `list::erase` at position `j`. */
  function Erase(s: seq<Noh>, j: nat): (r: seq<Noh>)
    requires j < |s|
    ensures |r| == |s| - 1
    ensures forall x :: 0 <= x < j ==> r[x] == s[x]
    ensures forall x :: j <= x < |r| ==> r[x] == s[x + 1]
  {
    s[..j] + s[j + 1..]
  }

  /** `list::insert` of `n` before position `k`. */
  function InsertAt(s: seq<Noh>, k: nat, n: Noh): (r: seq<Noh>)
    requires k <= |s|
    ensures |r| == |s| + 1 && r[k] == n
    ensures forall x :: 0 <= x < k ==> r[x] == s[x]
    ensures forall x :: k < x < |r| ==> r[x] == s[x - 1]
  {
    s[..k] + [n] + s[k..]
  }

  /** `upper_bound` by total cost: the first position whose node costs
      strictly more than `f`. */
  function UpperBound(s: seq<Noh>, f: real): (k: nat)
    ensures k <= |s|
    ensures forall j :: 0 <= j < k ==> s[j].custoTotal <= f
    ensures k < |s| ==> f < s[k].custoTotal
  {
    if |s| == 0 then 0
    else if f < s[0].custoTotal then 0
    else 1 + UpperBound(s[1..], f)
  }

  /** The open list without its entry for point `id`, if it has one. */
  function Without(s: seq<Noh>, id: string): seq<Noh>
  {
    if Has(s, id) then Erase(s, FindNoh(s, id)) else s
  }

  /** The rule for a successor: it enters the open list when its point is not
      closed and either is not open or is open with a strictly higher total
      cost. */
  predicate Admitted(fechado: seq<Noh>, aberto: seq<Noh>, suc: Noh)
  {
    && !Has(fechado, suc.idPt)
    && (!Has(aberto, suc.idPt) || suc.custoTotal < aberto[FindNoh(aberto, suc.idPt)].custoTotal)
  }

  /** `suc` is in `s` after every node that costs at most as much and before
      every node that costs more. */
  predicate Placed(s: seq<Noh>, suc: Noh)
  {
    var p := FindNoh(s, suc.idPt);
    && p < |s| && s[p] == suc
    && (forall j :: 0 <= j < p ==> s[j].custoTotal <= suc.custoTotal)
    && (forall j :: p < j < |s| ==> suc.custoTotal < s[j].custoTotal)
  }

  lemma EraseKeeps(s: seq<Noh>, j: nat)
    requires j < |s| && Sorted(s) && Distinct(s)
    ensures Sorted(Erase(s, j)) && Distinct(Erase(s, j))
    ensures forall n :: n in Erase(s, j) ==> n in s
    ensures forall i :: 0 <= i < |s| && s[i].idPt != s[j].idPt ==> Has(Erase(s, j), s[i].idPt)
    ensures !Has(Erase(s, j), s[j].idPt)
  {
    var r := Erase(s, j);
    forall a, b | 0 <= a < b < |r|
      ensures r[a].custoTotal <= r[b].custoTotal && r[a].idPt != r[b].idPt
    {
      var a', b' := if a < j then a else a + 1, if b < j then b else b + 1;
      assert r[a] == s[a'] && r[b] == s[b'];
    }
    forall i | 0 <= i < |s| && s[i].idPt != s[j].idPt
      ensures Has(r, s[i].idPt)
    {
      if i < j { HasAt(r, i, s[i].idPt); } else { HasAt(r, i - 1, s[i].idPt); }
    }
    forall n | n in r ensures n in s {
      var x :| 0 <= x < |r| && r[x] == n;
      if x < j { assert s[x] == n; } else { assert s[x + 1] == n; }
    }
  }

  lemma InsertSorted(s: seq<Noh>, suc: Noh)
    requires Sorted(s)
    ensures Sorted(InsertAt(s, UpperBound(s, suc.custoTotal), suc))
  {
    var k := UpperBound(s, suc.custoTotal);
    var r := InsertAt(s, k, suc);
    forall i, j | 0 <= i < j < |r| ensures r[i].custoTotal <= r[j].custoTotal {
      if j < k {
        assert r[i] == s[i] && r[j] == s[j];
      } else if j == k {
        assert r[i] == s[i];
      } else if i == k {
        assert r[j] == s[j - 1];
      } else if i < k {
        assert r[i] == s[i] && r[j] == s[j - 1];
      } else {
        assert r[i] == s[i - 1] && r[j] == s[j - 1];
      }
    }
  }

  lemma InsertPlaced(s: seq<Noh>, suc: Noh)
    requires Sorted(s) && Distinct(s) && !Has(s, suc.idPt)
    ensures var r := InsertAt(s, UpperBound(s, suc.custoTotal), suc);
      && Distinct(r) && Placed(r, suc) && FindNoh(r, suc.idPt) == UpperBound(s, suc.custoTotal)
  {
    var k := UpperBound(s, suc.custoTotal);
    var r := InsertAt(s, k, suc);
    assert forall i :: 0 <= i < |s| ==> s[i].idPt != suc.idPt;
    HasAt(r, k, suc.idPt);
    assert FindNoh(r, suc.idPt) == k;
    forall i, j | 0 <= i < j < |r| ensures r[i].idPt != r[j].idPt {
      if j < k {
        assert r[i] == s[i] && r[j] == s[j];
      } else if j == k {
        assert r[i] == s[i];
      } else if i == k {
        assert r[j] == s[j - 1];
      } else if i < k {
        assert r[i] == s[i] && r[j] == s[j - 1];
      } else {
        assert r[i] == s[i - 1] && r[j] == s[j - 1];
      }
    }
    forall j | k < j < |r| ensures suc.custoTotal < r[j].custoTotal {
      assert r[j] == s[j - 1];
    }
  }

  lemma InsertContents(s: seq<Noh>, k: nat, suc: Noh)
    requires k <= |s|
    ensures Erase(InsertAt(s, k, suc), k) == s
    ensures forall n :: n in InsertAt(s, k, suc) ==> n in s || n == suc
    ensures forall i :: 0 <= i < |s| ==> Has(InsertAt(s, k, suc), s[i].idPt)
  {
    var r := InsertAt(s, k, suc);
    assert Erase(r, k) == s;
    forall i | 0 <= i < |s| ensures Has(r, s[i].idPt) {
      if i < k { HasAt(r, i, s[i].idPt); } else { HasAt(r, i + 1, s[i].idPt); }
    }
    forall n | n in r ensures n in s || n == suc {
      var x :| 0 <= x < |r| && r[x] == n;
      if x < k { assert s[x] == n; } else if x > k { assert s[x - 1] == n; }
    }
  }

  /** Lines 396-433: a successor is discarded when its point is closed, or
      open at no higher total cost; otherwise it replaces the open entry of
      its point, if any, and is inserted at its `upper_bound` position. */
  method Relax(fechado: seq<Noh>, aberto0: seq<Noh>, suc: Noh) returns (aberto: seq<Noh>)
    requires Sorted(aberto0) && Distinct(aberto0)
    ensures Sorted(aberto) && Distinct(aberto)
    ensures !Admitted(fechado, aberto0, suc) ==> aberto == aberto0
    ensures Admitted(fechado, aberto0, suc) ==>
              Placed(aberto, suc) && Erase(aberto, FindNoh(aberto, suc.idPt)) == Without(aberto0, suc.idPt)
    ensures forall n :: n in aberto ==> n in aberto0 || (n == suc && !Has(fechado, suc.idPt))
    ensures Grows(aberto0, aberto)
    ensures NaoEncarece(aberto0, aberto)
    ensures Has(fechado, suc.idPt) || Has(aberto, suc.idPt)
    ensures !Has(fechado, suc.idPt) ==> Has(aberto, suc.idPt) && Custo(aberto, suc.idPt) <= suc.custoTotal
  {
    aberto := aberto0;
    var inedito := true;
    if Has(fechado, suc.idPt) {
      inedito := false;
    } else {
      var velho := FindNoh(aberto, suc.idPt);
      if velho < |aberto| {
        if suc.custoTotal < aberto[velho].custoTotal {
          EraseKeeps(aberto, velho);
          aberto := Erase(aberto, velho);
        } else {
          inedito := false;
        }
      }
    }
    if inedito {
      var mid := aberto;
      var big := UpperBound(aberto, suc.custoTotal);
      InsertSorted(mid, suc);
      InsertPlaced(mid, suc);
      InsertContents(mid, big, suc);
      aberto := InsertAt(aberto, big, suc);
      forall id | Has(aberto0, id) ensures Has(aberto, id) {
        if id == suc.idPt {
          HasAt(aberto, big, id);
        } else {
          var i := FindNoh(aberto0, id);
          if mid == aberto0 {
            assert Has(aberto, mid[i].idPt);
          } else {
            assert Has(mid, aberto0[i].idPt);
            var m := FindNoh(mid, id);
            assert Has(aberto, mid[m].idPt);
          }
        }
      }
      NaoEncareceDe(aberto0, aberto, suc);
    }
  }

  /** What the search knows of a node once the closed vector is `closed`:
      its point is on the map; the origin node (sentinel route) is at the
      origin with cost 0; any other node's route exists, is incident to its
      point, and leads back to a closed node, found before position `bound`,
      whose cost plus the route's length is the node's cost. */
  predicate NodeOk(g: Planejador, org: string, closed: seq<Noh>, n: Noh, bound: nat)
  {
    && g.HasPonto(n.idPt)
    && (n.idRt == Sentinel ==> n.idPt == org && n.custoPassado == 0.0)
    && (n.idRt != Sentinel ==>
          var ri := FindRota(g.rotas, n.idRt);
          && ri < |g.rotas|
          && Incide(g.rotas[ri], n.idPt)
          && var j := FindNoh(closed, OutraExtremidade(g.rotas[ri], n.idPt));
          && j < bound && j < |closed|
          && closed[j].custoPassado + g.rotas[ri].comprimento == n.custoPassado)
  }

  lemma NodeOkGrow(g: Planejador, org: string, closed: seq<Noh>, x: Noh, n: Noh, bound: nat, bound': nat)
    requires NodeOk(g, org, closed, n, bound) && bound <= bound'
    ensures NodeOk(g, org, closed + [x], n, bound')
  {
    if n.idRt != Sentinel {
      var ri := FindRota(g.rotas, n.idRt);
      HasAppend(closed, x, OutraExtremidade(g.rotas[ri], n.idPt));
    }
  }

  /** The closed vector: one node per point, each leading back to an earlier
      one. */
  predicate FechadoOk(g: Planejador, org: string, fechado: seq<Noh>)
  {
    && Distinct(fechado)
    && forall k :: 0 <= k < |fechado| ==> ClosedOk(g, org, fechado, k)
  }

  /** The node at position `k` of the closed vector leads back to an earlier
      one. */
  predicate ClosedOk(g: Planejador, org: string, fechado: seq<Noh>, k: nat)
  {
    k < |fechado| && NodeOk(g, org, fechado, fechado[k], k)
  }

  /** The open list: sorted by total cost, one node per point, no closed
      point, each node leading back to a closed one. */
  predicate AbertoOk(g: Planejador, org: string, aberto: seq<Noh>, fechado: seq<Noh>)
  {
    && Sorted(aberto)
    && Distinct(aberto)
    && forall n :: n in aberto ==> !Has(fechado, n.idPt) && NodeOk(g, org, fechado, n, |fechado|)
  }

  /** Every route before position `i` that is incident to point `pt` leads
      to a closed or open point. */
  predicate ExpandedBelow(g: Planejador, aberto: seq<Noh>, fechado: seq<Noh>, pt: string, i: nat)
  {
    forall r :: 0 <= r < i && r < |g.rotas| && Incide(g.rotas[r], pt) ==>
      Has(fechado, OutraExtremidade(g.rotas[r], pt)) || Has(aberto, OutraExtremidade(g.rotas[r], pt))
  }

  /** Every neighbour of point `pt` is closed or open. */
  predicate Expanded(g: Planejador, aberto: seq<Noh>, fechado: seq<Noh>, pt: string)
  {
    ExpandedBelow(g, aberto, fechado, pt, |g.rotas|)
  }

  /** Every point open in `a` is open in `a'`. */
  ghost predicate Grows(a: seq<Noh>, a': seq<Noh>)
  {
    forall id :: Has(a, id) ==> Has(a', id)
  }

  /** The total cost of the open entry of point `id`. */
  function Custo(s: seq<Noh>, id: string): real
    requires Has(s, id)
  {
    s[FindNoh(s, id)].custoTotal
  }

  /** Every point open in `a` is still open in `a'`, at no higher total cost. */
  ghost predicate NaoEncarece(a: seq<Noh>, a': seq<Noh>)
  {
    forall id :: Has(a, id) ==> Has(a', id) && Custo(a', id) <= Custo(a, id)
  }

  lemma NaoEncareceTrans(a: seq<Noh>, b: seq<Noh>, c: seq<Noh>)
    requires NaoEncarece(a, b) && NaoEncarece(b, c)
    ensures NaoEncarece(a, c)
  {
  }

  /** An open list whose new nodes are all `suc`, and whose entry for `suc`'s
      point is no costlier than before, keeps the cost of every other point. */
  lemma NaoEncareceDe(a: seq<Noh>, a': seq<Noh>, suc: Noh)
    requires Distinct(a) && Grows(a, a')
    requires forall n :: n in a' ==> n in a || n == suc
    requires Has(a, suc.idPt) ==> Custo(a', suc.idPt) <= Custo(a, suc.idPt)
    ensures NaoEncarece(a, a')
  {
    forall id | Has(a, id) ensures Has(a', id) && Custo(a', id) <= Custo(a, id) {
      if id != suc.idPt {
        var m := a'[FindNoh(a', id)];
        assert m in a';
        var j :| 0 <= j < |a| && a[j] == m;
        FindNohDistinct(a, j);
      }
    }
  }

  /** Handling the incident route at position `k` (after skipping routes
      that are not incident) extends the expanded prefix past `k`. */
  lemma ExpandStep(g: Planejador, fechado: seq<Noh>, aberto: seq<Noh>, aberto': seq<Noh>, pt: string, i: nat, k: nat)
    requires ExpandedBelow(g, aberto, fechado, pt, i) && Grows(aberto, aberto')
    requires i <= k < |g.rotas| && forall j :: i <= j < k ==> !Incide(g.rotas[j], pt)
    requires Has(fechado, OutraExtremidade(g.rotas[k], pt)) || Has(aberto', OutraExtremidade(g.rotas[k], pt))
    ensures ExpandedBelow(g, aberto', fechado, pt, k + 1)
  {
  }

  /** No incident route from position `i` on: the prefix covers all routes. */
  lemma ExpandSkip(g: Planejador, fechado: seq<Noh>, aberto: seq<Noh>, pt: string, i: nat)
    requires ExpandedBelow(g, aberto, fechado, pt, i) && i <= |g.rotas|
    requires forall j :: i <= j < |g.rotas| ==> !Incide(g.rotas[j], pt)
    ensures Expanded(g, aberto, fechado, pt)
  {
  }

  /** The first `m` closed nodes, except the destination, have been expanded. */
  predicate ExpandedUpTo(g: Planejador, dest: string, aberto: seq<Noh>, fechado: seq<Noh>, m: nat)
  {
    forall k :: 0 <= k < m && k < |fechado| && fechado[k].idPt != dest ==> Expanded(g, aberto, fechado, fechado[k].idPt)
  }

  /** Moving the front of the open list to the back of the closed vector
      keeps every point closed or open. */
  lemma ExpandedPop(g: Planejador, dest: string, aberto: seq<Noh>, fechado: seq<Noh>)
    requires aberto != [] && ExpandedUpTo(g, dest, aberto, fechado, |fechado|)
    ensures ExpandedUpTo(g, dest, aberto[1..], fechado + [aberto[0]], |fechado|)
  {
    var f := fechado + [aberto[0]];
    forall k | 0 <= k < |fechado| && f[k].idPt != dest
      ensures Expanded(g, aberto[1..], f, f[k].idPt)
    {
      assert f[k] == fechado[k];
      forall r | 0 <= r < |g.rotas| && Incide(g.rotas[r], f[k].idPt)
        ensures Has(f, OutraExtremidade(g.rotas[r], f[k].idPt)) || Has(aberto[1..], OutraExtremidade(g.rotas[r], f[k].idPt))
      {
        HasAppend(fechado, aberto[0], OutraExtremidade(g.rotas[r], f[k].idPt));
      }
    }
  }

  /** The open list only gaining points keeps every expanded point expanded. */
  lemma ExpandedGrow(g: Planejador, dest: string, aberto: seq<Noh>, aberto': seq<Noh>, fechado: seq<Noh>, m: nat)
    requires ExpandedUpTo(g, dest, aberto, fechado, m)
    requires Grows(aberto, aberto')
    ensures ExpandedUpTo(g, dest, aberto', fechado, m)
  {
  }

  lemma IdsOfAppend(s: seq<Noh>, x: Noh)
    ensures IdsOf(s + [x]) == IdsOf(s) + {x.idPt}
  {
    var t := s + [x];
    forall id | id in IdsOf(s) ensures id in IdsOf(t) {
      var i :| 0 <= i < |s| && s[i].idPt == id;
      assert t[i] == s[i];
    }
    assert t[|s|] == x;
  }

  /** The points of a sequence of nodes. */
  ghost function IdsOf(s: seq<Noh>): set<string>
  {
    set i | 0 <= i < |s| :: s[i].idPt
  }

  /** The point ids of the map. */
  ghost function PointIds(g: Planejador): set<string>
  {
    set i | 0 <= i < |g.pontos| :: g.pontos[i].id
  }

  lemma NotHasNotIn(s: seq<Noh>, id: string)
    ensures !Has(s, id) <==> id !in IdsOf(s)
  {
    if id in IdsOf(s) {
      var i :| 0 <= i < |s| && s[i].idPt == id;
      HasAt(s, i, id);
    }
  }

  /** A successor of the last closed node through an incident route leads
      back to that node. */
  lemma SuccessorOk(g: Planejador, org: string, fechado: seq<Noh>, i: nat, futuro: real, total: real)
    requires g.WellFormed() && Distinct(fechado) && fechado != []
    requires i < |g.rotas| && Incide(g.rotas[i], fechado[|fechado| - 1].idPt)
    ensures var atual := fechado[|fechado| - 1];
      var suc := Noh(OutraExtremidade(g.rotas[i], atual.idPt), g.rotas[i].id,
                     atual.custoPassado + g.rotas[i].comprimento, futuro, total);
      NodeOk(g, org, fechado, suc, |fechado|)
  {
    var atual := fechado[|fechado| - 1];
    FindNohDistinct(fechado, |fechado| - 1);
    FindRotaUnique(g, i);
    OutraExtremidadeInvolutiva(g.rotas[i], atual.idPt);
  }

  /** A `Relax` step that admits only `suc` keeps the open list's invariant. */
  lemma RelaxKeeps(g: Planejador, org: string, fechado: seq<Noh>, aberto: seq<Noh>, aberto': seq<Noh>, suc: Noh)
    requires AbertoOk(g, org, aberto, fechado) && NodeOk(g, org, fechado, suc, |fechado|)
    requires Sorted(aberto') && Distinct(aberto')
    requires forall n :: n in aberto' ==> n in aberto || (n == suc && !Has(fechado, suc.idPt))
    ensures AbertoOk(g, org, aberto', fechado)
  {
  }

  /** Lines 371-391: the successor of `atual` through route `i`. Its point
      is the route's other endpoint, its cost so far is the current one plus
      the route's length, and its estimate is the heuristic from that point to
      the destination. (On a well-formed map the point is always found; the
      empty point stands in otherwise.) */
  function Sucessor(g: Planejador, greatCircle: (Ponto, Ponto) -> real, ptDest: Ponto, atual: Noh, i: nat): (n: Noh)
    requires forall a, b :: greatCircle(a, b) >= 0.0
    requires i < |g.rotas|
    ensures n.idPt == OutraExtremidade(g.rotas[i], atual.idPt) && n.idRt == g.rotas[i].id
    ensures n.custoPassado == atual.custoPassado + g.rotas[i].comprimento
    ensures n.custoFuturo >= 0.0 && n.custoTotal == n.custoFuturo + n.custoPassado
  {
    var idSuc := OutraExtremidade(g.rotas[i], atual.idPt);
    var k := FindPonto(g.pontos, idSuc);
    var ptSuc := if k < |g.pontos| then g.pontos[k] else PontoVazio;
    var futuro := Haversine(greatCircle, ptSuc, ptDest);
    var passado := atual.custoPassado + g.rotas[i].comprimento;
    Noh(idSuc, g.rotas[i].id, passado, futuro, futuro + passado)
  }

  /** Every node open in `aberto` but not in `aberto0` is the successor of
      `atual` through a route incident to it, among the first `i`. */
  ghost predicate NovosSucessores(g: Planejador, greatCircle: (Ponto, Ponto) -> real, ptDest: Ponto, atual: Noh,
                                  aberto0: seq<Noh>, aberto: seq<Noh>, i: nat)
    requires forall a, b :: greatCircle(a, b) >= 0.0
  {
    forall n :: n in aberto && n !in aberto0 ==>
      exists r :: 0 <= r < i && r < |g.rotas| && Incide(g.rotas[r], atual.idPt) && n == Sucessor(g, greatCircle, ptDest, atual, r)
  }

  /** For each of the first `i` routes incident to `atual` whose successor's
      point is not closed, that point is open at a total cost no higher than
      the successor's. */
  ghost predicate MelhoresAte(g: Planejador, greatCircle: (Ponto, Ponto) -> real, ptDest: Ponto, fechado: seq<Noh>,
                              atual: Noh, aberto: seq<Noh>, i: nat)
    requires forall a, b :: greatCircle(a, b) >= 0.0
  {
    forall r :: 0 <= r < i && r < |g.rotas| && Incide(g.rotas[r], atual.idPt) &&
                !Has(fechado, Sucessor(g, greatCircle, ptDest, atual, r).idPt) ==>
      && Has(aberto, Sucessor(g, greatCircle, ptDest, atual, r).idPt)
      && Custo(aberto, Sucessor(g, greatCircle, ptDest, atual, r).idPt) <= Sucessor(g, greatCircle, ptDest, atual, r).custoTotal
  }

  /** Relaxing the successor through route `k` (after skipping routes that
      are not incident) extends both facts past `k`. */
  lemma SucessoresStep(g: Planejador, greatCircle: (Ponto, Ponto) -> real, ptDest: Ponto, fechado: seq<Noh>, atual: Noh,
                       aberto0: seq<Noh>, antes: seq<Noh>, aberto: seq<Noh>, i: nat, k: nat)
    requires forall a, b :: greatCircle(a, b) >= 0.0
    requires i <= k < |g.rotas| && Incide(g.rotas[k], atual.idPt)
    requires forall j :: i <= j < k ==> !Incide(g.rotas[j], atual.idPt)
    requires NovosSucessores(g, greatCircle, ptDest, atual, aberto0, antes, i)
    requires MelhoresAte(g, greatCircle, ptDest, fechado, atual, antes, i)
    requires NaoEncarece(aberto0, antes) && NaoEncarece(antes, aberto)
    requires var suc := Sucessor(g, greatCircle, ptDest, atual, k);
      && (forall n :: n in aberto ==> n in antes || n == suc)
      && (!Has(fechado, suc.idPt) ==> Has(aberto, suc.idPt) && Custo(aberto, suc.idPt) <= suc.custoTotal)
    ensures NovosSucessores(g, greatCircle, ptDest, atual, aberto0, aberto, k + 1)
    ensures MelhoresAte(g, greatCircle, ptDest, fechado, atual, aberto, k + 1)
    ensures NaoEncarece(aberto0, aberto)
  {
    NaoEncareceTrans(aberto0, antes, aberto);
    var suc := Sucessor(g, greatCircle, ptDest, atual, k);
    forall n | n in aberto && n !in aberto0
      ensures exists r :: 0 <= r < k + 1 && r < |g.rotas| && Incide(g.rotas[r], atual.idPt) && n == Sucessor(g, greatCircle, ptDest, atual, r)
    {
      if n !in antes {
        assert n == Sucessor(g, greatCircle, ptDest, atual, k);
      }
    }
  }

  /** No route incident to `atual` from position `i` on: both facts cover
      all routes. */
  lemma SucessoresSkip(g: Planejador, greatCircle: (Ponto, Ponto) -> real, ptDest: Ponto, fechado: seq<Noh>, atual: Noh,
                       aberto0: seq<Noh>, aberto: seq<Noh>, i: nat)
    requires forall a, b :: greatCircle(a, b) >= 0.0
    requires i <= |g.rotas| && forall j :: i <= j < |g.rotas| ==> !Incide(g.rotas[j], atual.idPt)
    requires NovosSucessores(g, greatCircle, ptDest, atual, aberto0, aberto, i)
    requires MelhoresAte(g, greatCircle, ptDest, fechado, atual, aberto, i)
    ensures NovosSucessores(g, greatCircle, ptDest, atual, aberto0, aberto, |g.rotas|)
    ensures MelhoresAte(g, greatCircle, ptDest, fechado, atual, aberto, |g.rotas|)
  {
  }

  /** Lines 371-433: the successor of `atual` through the incident route
      `i` is built and offered to the open list. */
  method Gera(g: Planejador, greatCircle: (Ponto, Ponto) -> real, org: string, ptDest: Ponto,
              fechado: seq<Noh>, atual: Noh, aberto0: seq<Noh>, i: nat) returns (aberto: seq<Noh>)
    requires g.WellFormed()
    requires forall a, b :: greatCircle(a, b) >= 0.0
    requires fechado != [] && atual == fechado[|fechado| - 1]
    requires FechadoOk(g, org, fechado) && AbertoOk(g, org, aberto0, fechado)
    requires i < |g.rotas| && Incide(g.rotas[i], atual.idPt)
    ensures AbertoOk(g, org, aberto, fechado)
    ensures Grows(aberto0, aberto) && NaoEncarece(aberto0, aberto)
    ensures var suc := Sucessor(g, greatCircle, ptDest, atual, i);
      && (!Admitted(fechado, aberto0, suc) ==> aberto == aberto0)
      && (Admitted(fechado, aberto0, suc) ==>
            Placed(aberto, suc) && Erase(aberto, FindNoh(aberto, suc.idPt)) == Without(aberto0, suc.idPt))
      && (forall n :: n in aberto ==> n in aberto0 || n == suc)
      && (Has(fechado, suc.idPt) || Has(aberto, suc.idPt))
      && (!Has(fechado, suc.idPt) ==> Has(aberto, suc.idPt) && Custo(aberto, suc.idPt) <= suc.custoTotal)
  {
    var suc := Sucessor(g, greatCircle, ptDest, atual, i);
    SuccessorOk(g, org, fechado, i, suc.custoFuturo, suc.custoTotal);
    aberto := Relax(fechado, aberto0, suc);
    RelaxKeeps(g, org, fechado, aberto0, aberto, suc);
  }

  /** Lines 358-436: the successors of `atual` through every route incident
      to its point, in the order of the routes, each handled by `Relax`. */
  method Expand(g: Planejador, greatCircle: (Ponto, Ponto) -> real, org: string, ptDest: Ponto,
                fechado: seq<Noh>, atual: Noh, aberto0: seq<Noh>) returns (aberto: seq<Noh>)
    requires g.WellFormed()
    requires forall a, b :: greatCircle(a, b) >= 0.0
    requires fechado != [] && atual == fechado[|fechado| - 1]
    requires FechadoOk(g, org, fechado) && AbertoOk(g, org, aberto0, fechado)
    ensures AbertoOk(g, org, aberto, fechado)
    ensures Grows(aberto0, aberto)
    ensures Expanded(g, aberto, fechado, atual.idPt)
    ensures NaoEncarece(aberto0, aberto)
    ensures NovosSucessores(g, greatCircle, ptDest, atual, aberto0, aberto, |g.rotas|)
    ensures MelhoresAte(g, greatCircle, ptDest, fechado, atual, aberto, |g.rotas|)
  {
    aberto := aberto0;
    var i := 0;
    while i < |g.rotas|
      invariant i <= |g.rotas|
      invariant AbertoOk(g, org, aberto, fechado)
      invariant Grows(aberto0, aberto)
      invariant ExpandedBelow(g, aberto, fechado, atual.idPt, i)
      invariant NaoEncarece(aberto0, aberto)
      invariant NovosSucessores(g, greatCircle, ptDest, atual, aberto0, aberto, i)
      invariant MelhoresAte(g, greatCircle, ptDest, fechado, atual, aberto, i)
      decreases |g.rotas| - i
    {
      ghost var desde := i;
      i := FindIncidente(g.rotas, i, atual.idPt);
      if i == |g.rotas| {
        ExpandSkip(g, fechado, aberto, atual.idPt, desde);
        SucessoresSkip(g, greatCircle, ptDest, fechado, atual, aberto0, aberto, desde);
      } else {
        ghost var antes := aberto;
        aberto := Gera(g, greatCircle, org, ptDest, fechado, atual, aberto, i);
        ExpandStep(g, fechado, antes, aberto, atual.idPt, desde, i);
        SucessoresStep(g, greatCircle, ptDest, fechado, atual, aberto0, antes, aberto, desde, i);
        i := i + 1;
      }
    }
  }

  /** Lines 349-353: moving the front of the open list to the back of the
      closed vector keeps both invariants. */
  lemma PopKeeps(g: Planejador, org: string, aberto: seq<Noh>, fechado: seq<Noh>)
    requires aberto != [] && FechadoOk(g, org, fechado) && AbertoOk(g, org, aberto, fechado)
    ensures FechadoOk(g, org, fechado + [aberto[0]])
    ensures AbertoOk(g, org, aberto[1..], fechado + [aberto[0]])
  {
    var x := aberto[0];
    var f := fechado + [x];
    assert x in aberto;
    HasAppend(fechado, x, x.idPt);
    forall k | 0 <= k < |f| ensures ClosedOk(g, org, f, k) {
      if k < |fechado| {
        assert ClosedOk(g, org, fechado, k);
        NodeOkGrow(g, org, fechado, x, fechado[k], k, k);
      } else {
        NodeOkGrow(g, org, fechado, x, x, |fechado|, |fechado|);
      }
    }
    forall i, j | 0 <= i < j < |f| ensures f[i].idPt != f[j].idPt {
      if j == |fechado| {
        assert f[i] == fechado[i];
        HasAt(fechado, i, f[i].idPt);
      }
    }
    forall n | n in aberto[1..]
      ensures !Has(f, n.idPt) && NodeOk(g, org, f, n, |f|)
    {
      var i :| 1 <= i < |aberto| && aberto[i] == n;
      HasAppend(fechado, x, n.idPt);
      NodeOkGrow(g, org, fechado, x, n, |fechado|, |f|);
    }
  }

  /** When the open list runs dry without reaching the destination, no route
      leaves the closed points. */
  lemma ClosedSetIsClosed(g: Planejador, dest: string, fechado: seq<Noh>)
    requires ExpandedUpTo(g, dest, [], fechado, |fechado|)
    requires forall k :: 0 <= k < |fechado| ==> fechado[k].idPt != dest
    ensures Fechado(g, IdsOf(fechado))
  {
    forall i, a | 0 <= i < |g.rotas| && a in IdsOf(fechado) && Incide(g.rotas[i], a)
      ensures OutraExtremidade(g.rotas[i], a) in IdsOf(fechado)
    {
      var k :| 0 <= k < |fechado| && fechado[k].idPt == a;
      assert Expanded(g, [], fechado, a);
      NotHasNotIn(fechado, OutraExtremidade(g.rotas[i], a));
    }
  }

  /** Lines 459-476: one step back along the parent chain. */
  lemma RebuildStep(g: Planejador, org: string, fechado: seq<Noh>, idx: nat, c: Caminho)
    requires g.WellFormed() && ClosedOk(g, org, fechado, idx) && fechado[idx].idRt != Sentinel
    requires Encadeado(g, [(fechado[idx].idRt, fechado[idx].idPt)] + c)
    ensures var a := fechado[idx];
      var ri := FindRota(g.rotas, a.idRt);
      ri < |g.rotas| &&
      var j := FindNoh(fechado, OutraExtremidade(g.rotas[ri], a.idPt));
      && j < idx
      && var p := fechado[j];
      var l := [(a.idRt, a.idPt)] + c;
      && Encadeado(g, [(p.idRt, p.idPt)] + l)
      && p.custoPassado + Comprimento(g, [(p.idRt, p.idPt)] + l) == a.custoPassado + Comprimento(g, l)
  {
    var a := fechado[idx];
    var ri := FindRota(g.rotas, a.idRt);
    var j := FindNoh(fechado, OutraExtremidade(g.rotas[ri], a.idPt));
    var p := fechado[j];
    var l := [(a.idRt, a.idPt)] + c;
    var l' := [(p.idRt, p.idPt)] + l;
    FindRotaUnique(g, ri);
    assert g.GetRota(a.idRt) == g.rotas[ri];
    UneOutra(g.rotas[ri], p.idPt, a.idPt);
    OutraExtremidadeInvolutiva(g.rotas[ri], a.idPt);
    assert Liga(g, l'[1].0, l'[0].1, l'[1].1);
    forall i | 0 < i < |l'| ensures Liga(g, l'[i].0, l'[i - 1].1, l'[i].1) {
      if i > 1 { assert l'[i] == l[i - 1] && l'[i - 1] == l[i - 2]; }
    }
    assert l'[1..] == l;
  }

  /** Lines 455-478: the path from the origin to the last closed node,
      built from the back by following each node's route to its parent. */
  method Rebuild(g: Planejador, org: string, dest: string, fechado: seq<Noh>) returns (c: Caminho)
    requires g.WellFormed() && FechadoOk(g, org, fechado)
    requires fechado != [] && fechado[|fechado| - 1].idPt == dest
    ensures EhCaminho(g, c, org, dest)
    ensures Comprimento(g, c) == fechado[|fechado| - 1].custoPassado
    ensures fechado[|fechado| - 1].idRt == Sentinel ==> c == [(Sentinel, dest)]
  {
    var atual := fechado[|fechado| - 1];
    ghost var idx: nat := |fechado| - 1;
    c := [];
    while atual.idRt != Sentinel
      invariant idx < |fechado| && atual == fechado[idx]
      invariant ([(atual.idRt, atual.idPt)] + c)[|c|].1 == dest
      invariant Encadeado(g, [(atual.idRt, atual.idPt)] + c)
      invariant atual.custoPassado + Comprimento(g, [(atual.idRt, atual.idPt)] + c) == fechado[|fechado| - 1].custoPassado
      invariant fechado[|fechado| - 1].idRt == Sentinel ==> c == []
      decreases idx
    {
      assert ClosedOk(g, org, fechado, idx);
      RebuildStep(g, org, fechado, idx, c);
      c := [(atual.idRt, atual.idPt)] + c;
      var idPtAnt := Sentinel;
      var rotaAnt := FindRota(g.rotas, atual.idRt);
      if rotaAnt < |g.rotas| {
        idPtAnt := OutraExtremidade(g.rotas[rotaAnt], atual.idPt);
      }
      var itr := FindNoh(fechado, idPtAnt);
      atual := fechado[itr];
      idx := itr;
    }
    assert ClosedOk(g, org, fechado, idx);
    c := [(atual.idRt, atual.idPt)] + c;
  }

  /** The invariant of the search loop: the closed and open lists are
      well-formed, every closed point but the destination is expanded, the
      origin was closed first, `atual` is the last closed node, and the
      destination, if closed, is the last node closed. */
  ghost predicate Laco(g: Planejador, org: string, dest: string, origem: Noh,
                       aberto: seq<Noh>, fechado: seq<Noh>, atual: Noh, fim: bool)
  {
    && FechadoOk(g, org, fechado) && AbertoOk(g, org, aberto, fechado)
    && ExpandedUpTo(g, dest, aberto, fechado, |fechado|)
    && (fechado == [] ==> aberto == [origem] && !fim)
    && (fechado != [] ==> fechado[0] == origem && atual == fechado[|fechado| - 1])
    && (!fim ==> aberto != [])
    && (fim ==> aberto == [] || atual.idPt == dest)
    && (forall k :: 0 <= k < |fechado| && (k < |fechado| - 1 || !fim) ==> fechado[k].idPt != dest)
    && (|fechado| == 1 && fechado[0].idPt == dest ==> aberto == [])
  }

  /** One round of the search loop keeps its invariant. */
  lemma LacoPasso(g: Planejador, org: string, dest: string, origem: Noh,
                  aberto0: seq<Noh>, fechado0: seq<Noh>, atual0: Noh,
                  aberto: seq<Noh>, fechado: seq<Noh>, atual: Noh, fim: bool)
    requires Laco(g, org, dest, origem, aberto0, fechado0, atual0, false)
    requires aberto0 != [] && atual == aberto0[0] && fechado == fechado0 + [atual]
    requires FechadoOk(g, org, fechado) && AbertoOk(g, org, aberto, fechado)
    requires ExpandedUpTo(g, dest, aberto, fechado, |fechado|)
    requires atual.idPt == dest ==> aberto == aberto0[1..]
    requires fim == !(aberto != [] && atual.idPt != dest)
    ensures Laco(g, org, dest, origem, aberto, fechado, atual, fim)
  {
  }

  /** Closing a point that was not closed before shrinks the set of points
      still to close, so the search loop terminates. */
  lemma Progresso(g: Planejador, fechado: seq<Noh>, atual: Noh)
    requires !Has(fechado, atual.idPt) && g.HasPonto(atual.idPt)
    ensures PointIds(g) - IdsOf(fechado + [atual]) < PointIds(g) - IdsOf(fechado)
  {
    IdsOfAppend(fechado, atual);
    NotHasNotIn(fechado, atual.idPt);
    var k := FindPonto(g.pontos, atual.idPt);
    assert g.pontos[k].id == atual.idPt;
  }

  /** The `do … while` loop of `calculaCaminho`: starting with only the
      origin node open, close the best open node and, unless it is the
      destination, expand it; stop when the destination is closed or
      nothing is left open. */
  method Pesquisa(g: Planejador, greatCircle: (Ponto, Ponto) -> real, idOrigem: string, idDestino: string,
                  ptDest: Ponto, origem: Noh) returns (aberto: seq<Noh>, fechado: seq<Noh>, atual: Noh)
    requires g.WellFormed()
    requires forall a, b :: greatCircle(a, b) >= 0.0
    requires g.HasPonto(idOrigem)
    requires origem.idPt == idOrigem && origem.idRt == Sentinel && origem.custoPassado == 0.0
    ensures Laco(g, idOrigem, idDestino, origem, aberto, fechado, atual, true)
  {
    atual := origem;
    aberto := [origem];
    fechado := [];
    var fim := false;
    while !fim
      invariant Laco(g, idOrigem, idDestino, origem, aberto, fechado, atual, fim)
      decreases PointIds(g) - IdsOf(fechado)
    {
      ghost var fechado0, aberto0, atual0 := fechado, aberto, atual;
      atual := aberto[0];
      PopKeeps(g, idOrigem, aberto, fechado);
      ExpandedPop(g, idDestino, aberto, fechado);
      aberto := aberto[1..];
      fechado := fechado + [atual];
      if atual.idPt != idDestino {
        ghost var antes := aberto;
        aberto := Expand(g, greatCircle, idOrigem, ptDest, fechado, atual, aberto);
        ExpandedGrow(g, idDestino, antes, aberto, fechado, |fechado| - 1);
      }
      fim := !(aberto != [] && atual.idPt != idDestino);
      LacoPasso(g, idOrigem, idDestino, origem, aberto0, fechado0, atual0, aberto, fechado, atual, fim);
      Progresso(g, fechado0, atual);
    }
  }

  /** When the origin is the destination, the loop stops after closing it. */
  lemma LacoOrigemDestino(g: Planejador, org: string, dest: string, origem: Noh,
                          aberto: seq<Noh>, fechado: seq<Noh>, atual: Noh)
    requires Laco(g, org, dest, origem, aberto, fechado, atual, true)
    requires origem.idPt == dest
    ensures fechado == [origem] && aberto == [] && atual == origem
  {
    assert fechado[0].idPt == dest;
  }

  /** A search that closed the origin first, expanded every closed point and
      never closed the destination proves the destination unreachable. */
  lemma Inalcancavel(g: Planejador, org: string, dest: string, fechado: seq<Noh>)
    requires ExpandedUpTo(g, dest, [], fechado, |fechado|)
    requires forall k :: 0 <= k < |fechado| ==> fechado[k].idPt != dest
    requires fechado != [] && fechado[0].idPt == org
    ensures !Alcancavel(g, org, dest)
  {
    ClosedSetIsClosed(g, dest, fechado);
    NotHasNotIn(fechado, org);
    HasAt(fechado, 0, org);
    NaoAlcancavel(g, IdsOf(fechado), org, dest);
  }

  /** Invalid input: an empty map, or an origin or destination that is not a
      point of the map. */
  predicate EntradaInvalida(g: Planejador, idOrigem: string, idDestino: string)
  {
    g.Empty() || !g.GetPonto(idOrigem).Valid() || !g.GetPonto(idDestino).Valid()
  }

  /** `Planejador::calculaCaminho`: the A* search from `idOrigem` to
      `idDestino`. Returns the length (`compr`), the path `c`, and the sizes
      of the open list (`na`) and of the closed vector (`nf`) at the end. */
  method CalculaCaminho(g: Planejador, greatCircle: (Ponto, Ponto) -> real, idOrigem: string, idDestino: string)
    returns (compr: real, c: Caminho, na: int, nf: int)
    requires g.WellFormed()
    requires forall a, b :: greatCircle(a, b) >= 0.0
    ensures EntradaInvalida(g, idOrigem, idDestino) ==> compr == -1.0 && c == [] && na == -1 && nf == -1
    ensures !EntradaInvalida(g, idOrigem, idDestino) ==> na >= 0 && nf >= 1
    ensures !EntradaInvalida(g, idOrigem, idDestino) ==> (c != [] <==> Alcancavel(g, idOrigem, idDestino))
    ensures !EntradaInvalida(g, idOrigem, idDestino) && c == [] ==> compr == -1.0 && na == 0
    ensures c != [] ==> EhCaminho(g, c, idOrigem, idDestino) && compr == Comprimento(g, c)
    ensures !EntradaInvalida(g, idOrigem, idDestino) && idOrigem == idDestino ==>
              c == [(Sentinel, idOrigem)] && compr == 0.0 && na == 0 && nf == 1
  {
    c := [];
    if g.Empty() {
      compr, na, nf := -1.0, -1, -1;
      return;
    }
    var ptOrig := g.GetPonto(idOrigem);
    if !ptOrig.Valid() {
      compr, na, nf := -1.0, -1, -1;
      return;
    }
    var ptDest := g.GetPonto(idDestino);
    if !ptDest.Valid() {
      compr, na, nf := -1.0, -1, -1;
      return;
    }

    var futuro := Haversine(greatCircle, ptOrig, ptDest);
    var atual := Noh(idOrigem, Sentinel, 0.0, futuro, futuro + 0.0);
    var origem := atual;
    assert g.HasPonto(idOrigem);
    var aberto, fechado;
    aberto, fechado, atual := Pesquisa(g, greatCircle, idOrigem, idDestino, ptDest, origem);

    na := |aberto|;
    nf := |fechado|;
    if idOrigem == idDestino {
      LacoOrigemDestino(g, idOrigem, idDestino, origem, aberto, fechado, atual);
    }
    if atual.idPt != idDestino {
      compr := -1.0;
      Inalcancavel(g, idOrigem, idDestino, fechado);
    } else {
      compr := atual.custoPassado;
      c := Rebuild(g, idOrigem, idDestino, fechado);
      CaminhoAlcanca(g, c, idOrigem, idDestino);
    }
  }
}
