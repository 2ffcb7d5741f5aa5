// Success envelopes and the budget they leave for a result.
module Responses {
  import opened Prelude
  import opened Trees

  datatype Limits = Limits(bytes: nat, nodes: nat, depth: nat)

  // May be negative when the limits are smaller than an empty envelope.
  datatype Budget = Budget(bytes: int, nodes: int, depth: int)

  // {"id":..., "jsonrpc":"2.0", "result":...} around a request id, a string or
  // an integer, that takes idBytes.
  function Envelope(idBytes: nat, result: Tree): Tree {
    Dict([4, 9, 8], [Key(idBytes), Key(5), result])
  }

  // _success_result_budget.
  function ResultBudget(idBytes: nat, limits: Limits): Budget {
    var empty := Envelope(idBytes, Dict([], []));
    Budget(limits.bytes - (Bytes(empty) - 2), limits.nodes - 6, limits.depth - 1)
  }

  predicate Within(t: Tree, limits: Limits) {
    Bytes(t) <= limits.bytes && Nodes(t) <= limits.nodes && Depth(t) <= limits.depth
  }

  predicate Meets(t: Tree, budget: Budget) {
    Bytes(t) <= budget.bytes && Nodes(t) <= budget.nodes && Depth(t) <= budget.depth
  }

  lemma EnvelopeMeasures(idBytes: nat, result: Tree)
    ensures Bytes(Envelope(idBytes, result)) == 2 + 21 + 3 + idBytes + 5 + Bytes(result) + 2
    ensures Nodes(Envelope(idBytes, result)) == 6 + Nodes(result)
    ensures Depth(Envelope(idBytes, result)) == 1 + Depth(result)
  {
    hide Bytes, Nodes, Depth, SumBytes, SumNodes, MaxDepth;
    var values := [Key(idBytes), Key(5), result];
    ThreeValues(values[0], values[1], result);
    assert Bytes(values[0]) == idBytes && Nodes(values[0]) == 1 && Depth(values[0]) == 1 by { LeafMeasures(idBytes); }
    assert Bytes(values[1]) == 5 && Nodes(values[1]) == 1 && Depth(values[1]) == 1 by { LeafMeasures(5); }
    ObjectMeasures([4, 9, 8], values);
    assert Sum([4, 9, 8]) == 21 by {
      assert [4, 9, 8][1..] == [9, 8] && [9, 8][1..] == [8];
      assert Sum([8]) == 8 && Sum([9, 8]) == 17;
    }
  }

  lemma LeafMeasures(n: nat)
    ensures Bytes(Key(n)) == n && Nodes(Key(n)) == 1 && Depth(Key(n)) == 1
  {
  }

  lemma ObjectMeasures(keys: seq<nat>, values: seq<Tree>)
    ensures Bytes(Dict(keys, values)) == 2 + Sum(keys) + |keys| + SumBytes(values) + Commas(|values|)
    ensures Nodes(Dict(keys, values)) == 1 + |keys| + SumNodes(values)
    ensures Depth(Dict(keys, values)) == 1 + Max(if keys == [] then 0 else 1, MaxDepth(values))
  {
  }

  lemma ThreeValues(a: Tree, b: Tree, c: Tree)
    ensures SumBytes([a, b, c]) == Bytes(a) + Bytes(b) + Bytes(c)
    ensures SumNodes([a, b, c]) == Nodes(a) + Nodes(b) + Nodes(c)
    ensures MaxDepth([a, b, c]) == Max(Depth(a), Max(Depth(b), Depth(c)))
  {
    hide Bytes, Nodes, Depth;
    var three, two, one := [a, b, c], [b, c], [c];
    assert three[1..] == two && two[1..] == one && one[1..] == [];
    assert SumBytes(one) == Bytes(c) && SumNodes(one) == Nodes(c) && MaxDepth(one) == Max(Depth(c), 0);
    assert SumBytes(two) == Bytes(b) + Bytes(c) && SumNodes(two) == Nodes(b) + Nodes(c);
    assert MaxDepth(two) == Max(Depth(b), Depth(c));
  }

  // The budget is exact: no response inside the limits is given up, none
  // outside them is let through, whatever the request id.
  lemma BudgetExact(idBytes: nat, result: Tree, limits: Limits)
    ensures Meets(result, ResultBudget(idBytes, limits)) <==> Within(Envelope(idBytes, result), limits)
  {
    hide Bytes, Nodes, Depth, Envelope;
    EnvelopeMeasures(idBytes, result);
    EnvelopeMeasures(idBytes, Dict([], []));
    assert Bytes(Dict([], [])) == 2 by {
      EmptyObject();
    }
  }

  lemma EmptyObject()
    ensures Bytes(Dict([], [])) == 2
  {
  }

  // _encode: the whole envelope, or a short error in its place.
  datatype Response = Sent(envelope: Tree) | TooLarge

  function EncodeSuccess(idBytes: nat, result: Tree, limits: Limits): Response {
    var envelope := Envelope(idBytes, result);
    if Bytes(envelope) <= limits.bytes then Sent(envelope) else TooLarge
  }

  // What the client makes of a response under the same limits.
  method Receive(response: Response, limits: Limits) returns (accepted: bool)
    ensures accepted <==> response.Sent? && Nodes(response.envelope) <= limits.nodes &&
                          Depth(response.envelope) <= limits.depth
  {
    match response
    case TooLarge => return false;
    case Sent(envelope) => accepted := ValidateTree(envelope, limits.nodes, limits.depth);
  }

  // A result is sent whole and accepted at the other end exactly when it meets
  // the budget.
  method Deliver(idBytes: nat, result: Tree, limits: Limits) returns (accepted: bool)
    ensures accepted <==> Meets(result, ResultBudget(idBytes, limits))
  {
    hide Bytes, Nodes, Depth, Envelope, ResultBudget;
    BudgetExact(idBytes, result, limits);
    accepted := Receive(EncodeSuccess(idBytes, result, limits), limits);
  }
}
