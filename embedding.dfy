/**
 * `Embedder.get_list_embeddings`: pair every object of a list with its embedding.
 * The embedding model itself is a given function.
 */
module Embedding {
  import opened Values

  /** Each input element paired with its embedding, in input order. */
  function Paired(objects: seq<Value>, embed: Value -> Emb): (r: seq<Pair>)
    ensures |r| == |objects|
    ensures forall i :: 0 <= i < |objects| ==> r[i].obj == objects[i] && r[i].emb == embed(objects[i])
  {
    seq(|objects|, i requires 0 <= i < |objects| => Pair(objects[i], embed(objects[i])))
  }

  /** The first components of a list of pairs. */
  function Objects(pairs: seq<Pair>): (r: seq<Value>)
    ensures |r| == |pairs| && forall i :: 0 <= i < |pairs| ==> r[i] == pairs[i].obj
  {
    seq(|pairs|, i requires 0 <= i < |pairs| => pairs[i].obj)
  }

  /** Pairing loses nothing: dropping the embeddings gives the input back, duplicates included. */
  lemma PairedObjects(objects: seq<Value>, embed: Value -> Emb)
    ensures Objects(Paired(objects, embed)) == objects
  {
  }

  method GetListEmbeddings(objects: seq<Value>, embed: Value -> Emb) returns (output: seq<Pair>)
    ensures output == Paired(objects, embed)
  {
    output := [];
    for i := 0 to |objects|
      invariant output == Paired(objects[..i], embed)
    {
      var embedding := embed(objects[i]);
      output := output + [Pair(objects[i], embedding)];
    }
    assert objects[..|objects|] == objects;
  }
}
