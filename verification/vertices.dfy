/** Vertices, blocks and the parent maps of src/model/vertex.cpp. */
module Vertices {
  /** A 32-byte public key, read as a big-endian number: `std::array` compares bytewise. */
  type Key = nat

  type Round = nat

  datatype Option<+T> = None | Some(value: T)

  datatype Block = Block(transactions: seq<seq<nat>>)

  /** An ideal digest: it is the very content the source hashes, so equal digests mean equal content. */
  datatype VertexHash = Digest(owner: Key, round: Round, block: Block, parents: map<VertexHash, Round>)

  /** Which parents a path search follows. */
  datatype Edges = Strong | All

  datatype Vertex = Vertex(hash: VertexHash, owner: Key, round: Round, block: Block, parents: map<VertexHash, Round>) {

    predicate IsPreviousRound(previous: Round) {
      round == previous + 1
    }

    function StrongParents(): map<VertexHash, Round> {
      map h | h in parents && IsPreviousRound(parents[h]) :: parents[h]
    }

    function Parents(e: Edges): map<VertexHash, Round> {
      if e.All? then parents else StrongParents()
    }

    predicate IsWeakParent(h: VertexHash) {
      h in parents && !IsPreviousRound(parents[h])
    }

    /** The hash is left as it was. */
    function AddParent(h: VertexHash, r: Round): Vertex {
      this.(parents := parents[h := r])
    }

    method GetStrongParents() returns (strong: map<VertexHash, Round>)
      ensures strong == StrongParents()
    {
      strong := map[];
      var todo := parents.Keys;
      while todo != {}
        invariant todo <= parents.Keys
        invariant strong == map h | h in parents && h !in todo && IsPreviousRound(parents[h]) :: parents[h]
      {
        var h :| h in todo;
        if IsPreviousRound(parents[h]) {
          strong := strong[h := parents[h]];
        }
        todo := todo - {h};
      }
    }
  }

  /** The constructor: the digest is taken of what it is given. */
  function NewVertex(owner: Key, round: Round, block: Block, parents: map<VertexHash, Round>): Vertex {
    Vertex(Digest(owner, round, block, parents), owner, round, block, parents)
  }

  function GenesisVertex(owner: Key): Vertex {
    NewVertex(owner, 1, Block([]), map[])
  }

  method Genesis(nodes: seq<Key>) returns (vertices: seq<Vertex>)
    ensures |vertices| == |nodes|
    ensures forall i | 0 <= i < |nodes| :: vertices[i] == GenesisVertex(nodes[i])
  {
    vertices := [];
    for i := 0 to |nodes|
      invariant |vertices| == i
      invariant forall j | 0 <= j < i :: vertices[j] == GenesisVertex(nodes[j])
    {
      vertices := vertices + [NewVertex(nodes[i], 1, Block([]), map[])];
    }
  }
}
