/**
 * The small labelled adjacency-list graph: vertices are string labels kept in
 * insertion order, each with the list of its out-neighbours, and each edge
 * carries a record of data (capacity, cost, probability) that the graph never
 * looks into, here the type parameter `D`.
 */
module Grafo {
  import opened Collections

  type Rotulo = string

  class Grafo<D> {
    /** The vertex labels, in insertion order. */
    var rotulos: seq<Rotulo>
    /** Out-neighbours of each vertex, in insertion order. */
    var listaAdj: map<Rotulo, seq<Rotulo>>
    /** The data of each edge. */
    var arestas: map<(Rotulo, Rotulo), D>

    /**
     * No label twice; the adjacency lists are keyed by exactly the labels and
     * mention only labels, none twice; an edge has data exactly when its head
     * is in its tail's list.
     */
    ghost predicate Valid()
      reads this
    {
      && NoDuplicates(rotulos)
      && (forall v :: v in listaAdj <==> v in rotulos)
      && (forall v, w :: v in listaAdj && w in listaAdj[v] ==> w in rotulos)
      && (forall v :: v in listaAdj ==> NoDuplicates(listaAdj[v]))
      && (forall v, w :: (v, w) in arestas <==> v in listaAdj && w in listaAdj[v])
    }

    /** The empty graph. */
    constructor ()
      ensures Valid()
      ensures rotulos == [] && listaAdj == map[] && arestas == map[]
    {
      rotulos := [];
      listaAdj := map[];
      arestas := map[];
    }

    /**
     * Adds a vertex: a label already present is refused and nothing changes;
     * a new label goes to the end of the list with no neighbours.
     */
    method AdicionarVertice(rotulo: Rotulo) returns (added: bool)
      requires Valid()
      modifies this
      ensures Valid()
      ensures added <==> rotulo !in old(rotulos)
      ensures !added ==> rotulos == old(rotulos) && listaAdj == old(listaAdj)
      ensures added ==> rotulos == old(rotulos) + [rotulo] && listaAdj == old(listaAdj)[rotulo := []]
      ensures arestas == old(arestas)
    {
      if rotulo in rotulos {
        return false;
      }
      AppendFreshKeepsNoDuplicates(rotulos, rotulo);
      rotulos := rotulos + [rotulo];
      listaAdj := listaAdj[rotulo := []];
      return true;
    }

    /**
     * Adds an edge: an unknown endpoint is refused and nothing changes; an
     * edge already present is refused but its data is overwritten; a new edge
     * appends `v2` to the end of `v1`'s list and stores its data.
     */
    method AdicionarAresta(v1: Rotulo, v2: Rotulo, data: D) returns (added: bool)
      requires Valid()
      modifies this
      ensures Valid()
      ensures rotulos == old(rotulos)
      ensures v1 !in old(rotulos) || v2 !in old(rotulos) ==>
        !added && listaAdj == old(listaAdj) && arestas == old(arestas)
      ensures v1 in old(rotulos) && v2 in old(rotulos) && v2 in old(listaAdj)[v1] ==>
        !added && listaAdj == old(listaAdj) && arestas == old(arestas)[(v1, v2) := data]
      ensures v1 in old(rotulos) && v2 in old(rotulos) && v2 !in old(listaAdj)[v1] ==>
        && added
        && listaAdj == old(listaAdj)[v1 := old(listaAdj)[v1] + [v2]]
        && arestas == old(arestas)[(v1, v2) := data]
    {
      if v1 !in rotulos || v2 !in rotulos {
        return false;
      }
      if v2 in listaAdj[v1] {
        arestas := arestas[(v1, v2) := data];
        return false;
      }
      AppendFreshKeepsNoDuplicates(listaAdj[v1], v2);
      listaAdj := listaAdj[v1 := listaAdj[v1] + [v2]];
      arestas := arestas[(v1, v2) := data];
      return true;
    }
  }
}
