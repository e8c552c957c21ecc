/** Paths returned by the planner and reachability in the map. */
module Caminhos {
  import opened Ids
  import opened Mapa

  /** A path (`Caminho`): (route id, point id) pairs from origin to
      destination; the first pair carries the sentinel route. */
  type Caminho = seq<(string, string)>

  /** Route `rid` exists in the map and joins points `a` and `b`. */
  predicate Liga(g: Planejador, rid: string, a: string, b: string)
  {
    var r := g.GetRota(rid);
    r.Valid() && Une(r, a, b)
  }

  /** Every pair after the first is reached from the previous pair's point
      by its own route. */
  predicate Encadeado(g: Planejador, c: Caminho)
  {
    forall i :: 0 < i < |c| ==> Liga(g, c[i].0, c[i - 1].1, c[i].1)
  }

  /** `c` is a path of `g` from `org` to `dest`. */
  predicate EhCaminho(g: Planejador, c: Caminho, org: string, dest: string)
  {
    && |c| > 0
    && c[0] == (Sentinel, org)
    && c[|c| - 1].1 == dest
    && Encadeado(g, c)
  }

  /** The sum of the lengths of the routes of a path (the first pair's
      sentinel route is not counted). */
  function Comprimento(g: Planejador, c: Caminho): real
  {
    if |c| <= 1 then 0.0 else g.GetRota(c[1].0).comprimento + Comprimento(g, c[1..])
  }

  /** Some route of the map joins `a` and `b`. */
  ghost predicate Adjacente(g: Planejador, a: string, b: string)
  {
    exists i :: 0 <= i < |g.rotas| && Une(g.rotas[i], a, b)
  }

  /** A walk: a non-empty sequence of points, each adjacent to the next. */
  ghost predicate Percurso(g: Planejador, ps: seq<string>)
  {
    |ps| > 0 && forall i :: 0 < i < |ps| ==> Adjacente(g, ps[i - 1], ps[i])
  }

  /** Some walk leads from `a` to `b`. */
  ghost predicate Alcancavel(g: Planejador, a: string, b: string)
  {
    exists ps :: Percurso(g, ps) && ps[0] == a && ps[|ps| - 1] == b
  }

  /** A set of points that no route leaves. */
  ghost predicate Fechado(g: Planejador, s: set<string>)
  {
    forall i, a :: 0 <= i < |g.rotas| && a in s && Incide(g.rotas[i], a) ==> OutraExtremidade(g.rotas[i], a) in s
  }

  /** The points of a path form a walk from its first to its last point. */
  lemma CaminhoAlcanca(g: Planejador, c: Caminho, org: string, dest: string)
    requires EhCaminho(g, c, org, dest)
    ensures Alcancavel(g, org, dest)
  {
    var ps := seq(|c|, i requires 0 <= i < |c| => c[i].1);
    forall i | 0 < i < |ps|
      ensures Adjacente(g, ps[i - 1], ps[i])
    {
      var r := g.GetRota(c[i].0);
      assert Liga(g, c[i].0, c[i - 1].1, c[i].1);
      var k :| 0 <= k < |g.rotas| && g.rotas[k] == r;
      assert Une(g.rotas[k], ps[i - 1], ps[i]);
    }
    assert Percurso(g, ps) && ps[0] == org && ps[|ps| - 1] == dest;
  }

  /** A walk that starts inside a set no route leaves stays inside it. */
  lemma {:induction false} PercursoDentro(g: Planejador, s: set<string>, ps: seq<string>)
    requires Fechado(g, s) && Percurso(g, ps) && ps[0] in s
    ensures ps[|ps| - 1] in s
  {
    if |ps| > 1 {
      var q := ps[..|ps| - 1];
      assert Percurso(g, q) by {
        forall i | 0 < i < |q| ensures Adjacente(g, q[i - 1], q[i]) {
          assert q[i - 1] == ps[i - 1] && q[i] == ps[i];
        }
      }
      PercursoDentro(g, s, q);
      var a, b := ps[|ps| - 2], ps[|ps| - 1];
      assert Adjacente(g, a, b);
      var i :| 0 <= i < |g.rotas| && Une(g.rotas[i], a, b);
      UneOutra(g.rotas[i], a, b);
    }
  }

  /** No walk leads out of a closed set of points. */
  lemma NaoAlcancavel(g: Planejador, s: set<string>, a: string, b: string)
    requires Fechado(g, s) && a in s && b !in s
    ensures !Alcancavel(g, a, b)
  {
    if ps :| Percurso(g, ps) && ps[0] == a && ps[|ps| - 1] == b {
      PercursoDentro(g, s, ps);
    }
  }
}
