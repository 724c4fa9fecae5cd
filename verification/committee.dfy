/** The committee of src/model/committee.cpp, reduced to what the consensus engine asks of it. */
module Committees {
  import opened Orders
  import opened Vertices
  import opened Quorums

  type Id = nat

  class Committee {
    /** The public key of each validator. */
    const validators: map<Id, Key>

    constructor (validators: map<Id, Key>)
      ensures this.validators == validators
    {
      this.validators := validators;
    }

    function Size(): nat {
      |validators|
    }

    /** The threshold the node state computes from the genesis vertices, for tolerating `Faults` faults. */
    function QuorumThreshold(): (q: nat)
      ensures q == QuorumSize(Size())
      ensures Size() > 0 ==> q == Size() - Faults(Size())
    {
      Size() * 2 / 3 + 1
    }

    /** The keys of all validators, in whatever order the map yields them; distinct when the validators'
        keys are, which makes them a proper configuration. */
    method GetNodesKeys() returns (keys: seq<Key>)
      ensures |keys| == Size() && Elements(keys) == validators.Values
      ensures (forall i, j | i in validators && j in validators && validators[i] == validators[j] :: i == j) ==>
              Distinct(keys)
    {
      keys := [];
      var todo := validators.Keys;
      assert |validators.Keys| == |validators|;
      ghost var ids: seq<Id> := [];
      while todo != {}
        invariant todo <= validators.Keys && |keys| == |ids| && |keys| + |todo| == |validators|
        invariant forall i :: i in ids <==> i in validators && i !in todo
        invariant forall n | 0 <= n < |keys| :: ids[n] in validators && keys[n] == validators[ids[n]]
        invariant Distinct(ids)
      {
        var id :| id in todo;
        keys := keys + [validators[id]];
        ids := ids + [id];
        todo := todo - {id};
      }
      forall k ensures k in Elements(keys) <==> k in validators.Values {
        if k in validators.Values {
          var id :| id in validators && validators[id] == k;
          assert id in ids;
          var n :| 0 <= n < |ids| && ids[n] == id;
          assert keys[n] == k;
        }
      }
    }
  }
}
