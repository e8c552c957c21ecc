# A* route planner (`Planejador`) in Dafny

This project models the route planner of `planejador.cpp` and proves properties of the model. The map holds points (`Ponto`: id, name, latitude, longitude) and two-way routes (`Rota`: id, name, two endpoint ids, length in km). `calculaCaminho` runs an A* search from an origin point to a destination point and reports three things:

- the path, as a list of (route id, point id) pairs;
- its length;
- the sizes of the open list (`NA`) and of the closed vector (`NF`) when the search stops.

The project has four modules:

- **Ids** (`Ids.dfy`) covers validated identifiers. `IDPonto::set` and `IDRota::set` store a string, or the empty sentinel when the string is not a valid id. They are modelled as classes `IdPonto` and `IdRota`, whose `Set` method updates the field `t`.
- **Mapa** (`Mapa.dfy`) holds the points, the routes and the map itself. The map is the datatype `Planejador`, since the search never changes it. This module also has:
  - the linear `find`s;
  - `getPonto` and `getRota`;
  - the route/point incidence test;
  - the `haversine` heuristic.
- **Caminhos** (`Caminhos.dfy`) covers paths over the map (`EhCaminho`, `Comprimento`) and reachability by walks (`Alcancavel`).
- **Busca** (`Busca.dfy`) is the search.
  - Search nodes (`Noh`) carry the cost so far, the heuristic estimate and their sum.
  - The open list stays in ascending total cost. Its `erase` and `upper_bound` insertion are modelled as functions on sequences.
  - The closed vector is a sequence that only grows at the back.
  - `Relax` handles one successor: it first checks the closed vector, then the open list.
  - `Gera` builds the successor through one incident route and hands it to `Relax`.
  - `Expand` is the loop over the routes incident to the current point.
  - `Pesquisa` is the `do … while` loop.
  - `Rebuild` is the backtracking loop that builds the path front to back.
  - `CalculaCaminho` is the whole operation.

`CalculaCaminho` has three outcomes:

- **Invalid input:** an empty map, or an origin or destination that is not a point. The result is length −1, an empty path and `NA = NF = -1`.
- **No path:** the result is length −1, an empty path, `NA = 0` and `NF >= 1`. In this case the destination is proved unreachable from the origin by any walk over the routes.
- **Success:** the path starts with (empty route, origin) and ends at the destination. Each later pair's route joins the previous point to its own point, and the returned length is the sum of the path's route lengths. A path exists exactly when the destination is reachable.
- **Origin equals destination:** the path is the single pair (empty route, origin), the length is 0, `NA = 0` and `NF = 1`.

Three invariants are proved and kept through the search:

- The open list stays sorted and holds at most one node per point. It never holds a closed point.
- Every closed or open node other than the origin points back, through its route, to a node closed earlier, and its cost is that node's cost plus the route's length.
- Every closed point other than the destination has had all its neighbours put into the closed vector or the open list.

Where the code and its comments disagree, the model follows the code:

- The comment above `calculaCaminho` (planejador.cpp:300-303) says `NA` is positive even when no path exists.
- The loop only stops short of the destination when the open list is empty, so `NA` is 0 in that case, and the model proves `NA == 0`.

Stand-ins for declarations that `planejador.h` makes (planejador.h is not part of this model):

- An id's `valid()` is taken as "non-empty and without the `;` field separator". The proofs only use the fact that the empty string is invalid.
- `empty()` is taken as "no points".
- A point's `valid()` is the validity of its id.
- The `Rota`/`Noh` comparison `find` uses at line 366 is incidence: either endpoint equals the node's point.
- Every other `find` compares ids.
- `upper_bound` compares total costs.
- The empty `Ponto()` and `Rota()` have the empty id and zero coordinates and length.

The classes `IdPonto` and `IdRota` stand apart from the search. In the map, the nodes and the search, identifiers are plain strings. The validity that `Set` guarantees through `Sanitize` (valid, or else the empty sentinel) is what `Planejador.WellFormed` assumes of every stored id.

The map is assumed to satisfy what the loader checks before any search (`Planejador.WellFormed`):

- point ids are valid and unique;
- route ids are valid and unique;
- every route endpoint names an existing point.

## Model

| member | source | states |
|---|---|---|
| Ids.Sanitize | planejador.cpp:18-22 | the stored id is valid exactly when the input is; a valid input is kept unchanged, an invalid one becomes the empty sentinel |
| Ids.IdPonto.Set | planejador.cpp:18-22 | after `set`, the point id holds the input if it is valid and the empty sentinel otherwise |
| Ids.IdRota.Set | planejador.cpp:29-33 | after `set`, the route id holds the input if it is valid and the empty sentinel otherwise |
| Mapa.FindPonto | planejador.cpp:81 | `find` over the points: the index of the first point with that id, or the length when there is none |
| Mapa.FindRota | planejador.cpp:100 | `find` over the routes: the index of the first route with that id, or the length when there is none |
| Mapa.FindIncidente | planejador.cpp:366 | `find(rota_suc, end, atual)`: the first route at or after the start position that is incident to the point, or the end; no route skipped is incident |
| Mapa.OutraExtremidade | planejador.cpp:373-380 | for a route incident to a point, the chosen successor is the route's other endpoint, so the route joins the two |
| Mapa.Planejador.GetPonto | planejador.cpp:75-90 | an invalid id gives the empty point; otherwise the result is the first point with that id, and the empty point exactly when there is none |
| Mapa.Planejador.GetRota | planejador.cpp:94-110 | an invalid id gives the empty route; otherwise the result is the first route with that id, and the empty route exactly when there is none |
| Mapa.Haversine | planejador.cpp:40-43 | the heuristic is never negative and is 0 for two points with the same id |
| Caminhos.CaminhoAlcanca | planejador.cpp:455-478 | a path in the planner's sense witnesses that its destination is reachable from its origin by a walk |
| Caminhos.PercursoDentro | planejador.cpp:438-449 | a walk that starts in a set of points that no route leaves never leaves the set |
| Caminhos.NaoAlcancavel | planejador.cpp:438-449 | no walk leads from inside a set that no route leaves to a point outside it |
| Busca.FindNoh | planejador.cpp:398 | `find` over nodes: the index of the first node at that point, or the length |
| Busca.UpperBound | planejador.cpp:431 | `upper_bound`: every node before the position costs at most `f`, and the node at the position costs more |
| Busca.Erase | planejador.cpp:415 | `erase`: one node fewer, earlier nodes in place, later ones shifted down by one |
| Busca.InsertAt | planejador.cpp:432 | `insert`: the new node is at the position, earlier nodes in place, later ones shifted up by one |
| Busca.HasAppend | planejador.cpp:353 | appending a node to the closed vector adds only its point and does not move where earlier points are found |
| Busca.EraseKeeps | planejador.cpp:415 | erasing from a sorted open list with one node per point keeps it sorted and with one node per point; only the erased node's point leaves |
| Busca.InsertSorted | planejador.cpp:431-432 | inserting at the `upper_bound` position keeps the open list sorted |
| Busca.InsertPlaced | planejador.cpp:431-432 | the inserted node comes after every node of equal or lower cost and before every node of higher cost, and the points stay distinct |
| Busca.InsertContents | planejador.cpp:432 | insertion adds exactly the new node: erasing it gives back the old list, and every old point is still present |
| Busca.Relax | planejador.cpp:396-433 | a successor whose point is closed, or open at no higher cost, is discarded and the open list is unchanged; otherwise the old entry is removed and the successor is placed after all nodes of equal cost; the list stays sorted with one node per point and never gains a closed point; no open point becomes costlier, and a successor whose point is not closed ends up open at no more than its own total cost |
| Busca.SuccessorOk | planejador.cpp:371-391 | a successor built from the current node and an incident route leads back through that route to the current node, with cost so far equal to the current cost plus the route length |
| Busca.NodeOkGrow | planejador.cpp:353 | a node's link back to a closed parent survives appending to the closed vector |
| Busca.NaoEncareceDe | planejador.cpp:412-432 | when the only new open node is the successor, and its point's entry got no costlier, no open point got costlier |
| Busca.Sucessor | planejador.cpp:371-391 | the successor's point is the route's other endpoint, its route is that route's id, its cost so far is the current cost plus the route length, its estimate is non-negative and its total is the sum |
| Busca.Gera | planejador.cpp:371-433 | the successor through route `i` is built as at lines 373-391 and offered to the open list with exactly `Relax`'s outcome: discarded when its point is closed or open at no higher cost, otherwise placed in cost order in place of the old entry; the open list's invariant is kept |
| Busca.SucessoresStep | planejador.cpp:358-436 | handling one more incident route keeps the facts of the successor loop: new open nodes are successors of the current node, and each successor whose point is not closed is open at no more than its cost |
| Busca.Expand | planejador.cpp:358-436 | after the successor loop, the open list keeps its invariant and no open point is lost or becomes costlier; every node newly open is the successor of the current node through an incident route; for every incident route whose successor's point is not closed, that point is open at a total cost no higher than the successor's (so a costlier open entry was replaced); every neighbour of the current point is closed or open |
| Busca.PopKeeps | planejador.cpp:349-353 | moving the front of the open list to the back of the closed vector keeps the closed vector's and the open list's invariants |
| Busca.ExpandedPop | planejador.cpp:349-353 | that move keeps every neighbour of every expanded closed point closed or open |
| Busca.ClosedSetIsClosed | planejador.cpp:438-449 | when the open list is empty and the destination was never closed, no route leads out of the closed points |
| Busca.Progresso | planejador.cpp:345-438 | each round closes a point that was not closed before, so the loop terminates |
| Busca.Pesquisa | planejador.cpp:330-438 | the loop ends with both invariants, the origin closed first, the last closed node current, and either an empty open list or the destination closed last |
| Busca.LacoOrigemDestino | planejador.cpp:345-356 | when the origin is the destination, the loop closes only the origin and leaves nothing open |
| Busca.Inalcancavel | planejador.cpp:438-449 | a search that ends without closing the destination proves it unreachable from the origin |
| Busca.RebuildStep | planejador.cpp:459-476 | one backtracking step finds the parent at an earlier closed position, extends the chain of routes, and keeps cost so far plus remaining length constant |
| Busca.Rebuild | planejador.cpp:455-478 | the rebuilt list is a path from the origin to the destination whose route lengths sum to the destination node's cost so far; for the origin node it is the single pair (empty route, origin) |
| Busca.CalculaCaminho | planejador.cpp:304-491 | the invalid-input, no-path and success results with their counters; a path is returned exactly when the destination is reachable, and its length is the returned length; origin equal to destination gives length 0, the single pair, `NA = 0` and `NF = 1` |

## Left out

- `Planejador::ler` (planejador.cpp:135-284) reads files through `ifstream` and is left out. Only the map invariants it establishes are kept, as `Planejador.WellFormed`.
- Busca.CalculaCaminho: requires `Planejador.WellFormed`, which the loader guarantees. The code itself does not check it. Without it, the `find` over the points at planejador.cpp:383 could return the end, which line 389 dereferences. The route `find` at line 462 could also fail, so the closed-vector `find` at line 475 could return the end, which line 476 dereferences.
- `imprimirPontos` and `imprimirRotas` (planejador.cpp:113-130) only write to the console.
- `clear` (planejador.cpp:67-71) only empties both lists, and no modelled operation calls it.
- Mapa.Haversine: the spherical trigonometry (planejador.cpp:45-59) is replaced by the parameter `greatCircle`. The model assumes only that it is never negative, which the clamped arc cosine guarantees.
- The `throw`/`catch` and `cerr` error reporting of `calculaCaminho` become early returns of the invalid-input result. The error code and message are not modelled.
- Busca.CalculaCaminho: does not prove the path is the shortest. The code never checks the heuristic for admissibility or consistency, and route lengths are not required to be non-negative.
- Busca.CalculaCaminho: on success it states the length as the sum of the returned path's route lengths. It does not state `NA` and `NF` beyond `NA >= 0` and `NF >= 1`.
- Costs and coordinates are `real`, not `double`. Floating-point rounding is not modelled.
- The `list<Noh>` open list and the `vector<Noh>` closed vector are modelled as sequences that the methods reassign. Iterator invalidation and the `list` node structure are not modelled.
