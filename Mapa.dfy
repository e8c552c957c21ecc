/** The map of the route planner: points, routes, the point and route lookups
    of `Planejador`, and the distance heuristic. */
module Mapa {
  import opened Ids

  /** A point of the map (`Ponto`): identifier, name, latitude, longitude. */
  datatype Ponto = Ponto(id: string, nome: string, latitude: real, longitude: real)
  {
    /** A point is present when its identifier is valid. */
    predicate Valid()
    {
      ValidId(id)
    }
  }

  /** A route (`Rota`): identifier, name, the identifiers of its two endpoints
      (`extremidade[0]`, `extremidade[1]`) and its length in km. */
  datatype Rota = Rota(id: string, nome: string, extremidade0: string, extremidade1: string, comprimento: real)
  {
    predicate Valid()
    {
      ValidId(id)
    }
  }

  /** `Ponto()`: the empty point returned by a failed lookup. */
  const PontoVazio: Ponto := Ponto(Sentinel, "", 0.0, 0.0)

  /** `Rota()`: the empty route returned by a failed lookup. */
  const RotaVazia: Rota := Rota(Sentinel, "", Sentinel, Sentinel, 0.0)

  /** `std::find` over the points, comparing each point's id with `id`:
      the index of the first match, or the length when there is none. */
  function FindPonto(pontos: seq<Ponto>, id: string): (k: nat)
    ensures k <= |pontos|
    ensures k < |pontos| ==> pontos[k].id == id
    ensures forall j :: 0 <= j < k ==> pontos[j].id != id
  {
    if |pontos| == 0 then 0
    else if pontos[0].id == id then 0
    else 1 + FindPonto(pontos[1..], id)
  }

  /** `std::find` over the routes, comparing each route's id with `id`. */
  function FindRota(rotas: seq<Rota>, id: string): (k: nat)
    ensures k <= |rotas|
    ensures k < |rotas| ==> rotas[k].id == id
    ensures forall j :: 0 <= j < k ==> rotas[j].id != id
  {
    if |rotas| == 0 then 0
    else if rotas[0].id == id then 0
    else 1 + FindRota(rotas[1..], id)
  }

  /** A route is incident to a point when either endpoint is that point. */
  predicate Incide(r: Rota, pt: string)
  {
    r.extremidade0 == pt || r.extremidade1 == pt
  }

  /** The endpoint of `r` that is not `pt` (`pt` itself for a loop). */
  function OutraExtremidade(r: Rota, pt: string): (q: string)
    ensures Incide(r, pt) ==> Une(r, pt, q)
  {
    if r.extremidade0 == pt then r.extremidade1 else r.extremidade0
  }

  /** Route `r` joins `a` and `b`, in either direction. */
  predicate Une(r: Rota, a: string, b: string)
  {
    (r.extremidade0 == a && r.extremidade1 == b) || (r.extremidade0 == b && r.extremidade1 == a)
  }

  /** A route joins `a` and `b` exactly when it is incident to `a` and `b`
      is its other endpoint as seen from `a`. */
  lemma UneOutra(r: Rota, a: string, b: string)
    ensures Une(r, a, b) <==> Incide(r, a) && OutraExtremidade(r, a) == b
  {
  }

  /** Taking the other endpoint twice comes back to an incident point. */
  lemma OutraExtremidadeInvolutiva(r: Rota, pt: string)
    requires Incide(r, pt)
    ensures OutraExtremidade(r, OutraExtremidade(r, pt)) == pt
  {
  }

  /** `find(rotas_suc, rotas.end(), atual)`: the index, from `from` on, of the
      first route incident to `pt`, or the length when there is none. */
  function FindIncidente(rotas: seq<Rota>, from: nat, pt: string): (k: nat)
    requires from <= |rotas|
    ensures from <= k <= |rotas|
    ensures k < |rotas| ==> Incide(rotas[k], pt)
    ensures forall j :: from <= j < k ==> !Incide(rotas[j], pt)
    decreases |rotas| - from
  {
    if from == |rotas| then from
    else if Incide(rotas[from], pt) then from
    else FindIncidente(rotas, from + 1, pt)
  }

  /** The route planner's map (`Planejador`): the points and the routes. */
  datatype Planejador = Planejador(pontos: seq<Ponto>, rotas: seq<Rota>)
  {
    /** `empty()`: a map without points. */
    predicate Empty()
    {
      |pontos| == 0
    }

    predicate HasPonto(id: string)
    {
      FindPonto(pontos, id) < |pontos|
    }

    /** What the loader establishes before a map reaches the planner: valid
        and unique point ids, valid and unique route ids, and route endpoints
        that name existing points. */
    predicate WellFormed()
    {
      && (forall i :: 0 <= i < |pontos| ==> ValidId(pontos[i].id))
      && (forall i, j :: 0 <= i < j < |pontos| ==> pontos[i].id != pontos[j].id)
      && (forall i :: 0 <= i < |rotas| ==>
            ValidId(rotas[i].id) && HasPonto(rotas[i].extremidade0) && HasPonto(rotas[i].extremidade1))
      && (forall i, j :: 0 <= i < j < |rotas| ==> rotas[i].id != rotas[j].id)
    }

    /** `getPonto`: the first point whose id is `id`, or the empty point when
        `id` is invalid or absent. */
    function GetPonto(id: string): (p: Ponto)
      ensures !ValidId(id) ==> p == PontoVazio
      ensures p.Valid() <==> ValidId(id) && exists i :: 0 <= i < |pontos| && pontos[i].id == id
      ensures p.Valid() ==> exists i :: 0 <= i < |pontos| && pontos[i] == p && p.id == id
                                       && forall j :: 0 <= j < i ==> pontos[j].id != id
      ensures !p.Valid() ==> p == PontoVazio
    {
      if ValidId(id) then
        var k := FindPonto(pontos, id);
        if k < |pontos| then pontos[k] else PontoVazio
      else
        PontoVazio
    }

    /** `getRota`: the first route whose id is `id`, or the empty route when
        `id` is invalid or absent. */
    function GetRota(id: string): (r: Rota)
      ensures !ValidId(id) ==> r == RotaVazia
      ensures r.Valid() <==> ValidId(id) && exists i :: 0 <= i < |rotas| && rotas[i].id == id
      ensures r.Valid() ==> exists i :: 0 <= i < |rotas| && rotas[i] == r && r.id == id
                                       && forall j :: 0 <= j < i ==> rotas[j].id != id
      ensures !r.Valid() ==> r == RotaVazia
    {
      if ValidId(id) then
        var k := FindRota(rotas, id);
        if k < |rotas| then rotas[k] else RotaVazia
      else
        RotaVazia
    }
  }

  /** With unique route ids, looking up the id of the i-th route finds it. */
  lemma FindRotaUnique(g: Planejador, i: nat)
    requires g.WellFormed() && i < |g.rotas|
    ensures FindRota(g.rotas, g.rotas[i].id) == i
    ensures g.GetRota(g.rotas[i].id) == g.rotas[i]
  {
  }

  /** `haversine`: 0 for points with the same id (the short-circuit that
      avoids a degenerate arc cosine); otherwise the great-circle distance,
      taken here as the parameter `greatCircle` (the spherical trigonometry
      is not part of this model). The clamped arc cosine times the Earth
      radius is never negative, which is what `greatCircle` must satisfy. */
  function Haversine(greatCircle: (Ponto, Ponto) -> real, p1: Ponto, p2: Ponto): (d: real)
    requires forall a, b :: greatCircle(a, b) >= 0.0
    ensures d >= 0.0
    ensures p1.id == p2.id ==> d == 0.0
  {
    if p1.id == p2.id then 0.0 else greatCircle(p1, p2)
  }
}
