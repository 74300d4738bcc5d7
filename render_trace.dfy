/**
 An abstract trace of the calls a camera makes into the renderer's transform
 stack. Only the order of the calls is modelled: no matrix semantics is given
 to Translate, Scale or Rotate. Push and Pop change the stack depth by one.
 */
module RenderTrace {

  /** The visible rectangle handed to a draw callback: left, top, width, height. */
  datatype Rect = Rect(left: real, top: real, width: real, height: real)

  /** One call into the renderer, or the invocation of the caller's draw callback. */
  datatype Op =
    | Push
    | Pop
    | Translate(dx: real, dy: real)
    | Scale(factor: real)
    | Rotate(angle: real)
    | Call(visible: Rect)

  /** How much an operation changes the depth of the transform stack. */
  function Delta(op: Op): int
  {
    match op
    case Push => 1
    case Pop => -1
    case _ => 0
  }

  /** Net change of the stack depth over a trace. */
  function Depth(ops: seq<Op>): int
  {
    if ops == [] then 0 else Delta(ops[0]) + Depth(ops[1..])
  }

  /** The trace never pops below its starting depth and ends where it started. */
  predicate Balanced(ops: seq<Op>)
  {
    Depth(ops) == 0 && forall k | 0 <= k <= |ops| :: Depth(ops[..k]) >= 0
  }

  /** The trace neither pushes nor pops. */
  predicate StackNeutral(ops: seq<Op>)
  {
    forall k | 0 <= k < |ops| :: Delta(ops[k]) == 0
  }

  /** Depth is additive over concatenation of traces. */
  lemma {:induction false} DepthConcat(a: seq<Op>, b: seq<Op>)
    ensures Depth(a + b) == Depth(a) + Depth(b)
  {
    if a == [] {
      assert a + b == b;
    } else {
      assert (a + b)[0] == a[0];
      assert (a + b)[1..] == a[1..] + b;
      DepthConcat(a[1..], b);
    }
  }

  /** A trace that neither pushes nor pops, nor any of its prefixes, changes the depth. */
  lemma {:induction false} NeutralDepth(ops: seq<Op>)
    requires StackNeutral(ops)
    ensures Depth(ops) == 0
  {
    if ops != [] {
      assert StackNeutral(ops[1..]) by {
        forall k | 0 <= k < |ops[1..]| ensures Delta(ops[1..][k]) == 0 {
          assert ops[1..][k] == ops[k + 1];
        }
      }
      NeutralDepth(ops[1..]);
    }
  }

  /** Every prefix of a stack-neutral trace leaves the depth unchanged. */
  lemma NeutralPrefixDepth(setup: seq<Op>, n: nat)
    requires StackNeutral(setup) && n <= |setup|
    ensures Depth(setup[..n]) == 0
  {
    var p := setup[..n];
    forall j | 0 <= j < |p| ensures Delta(p[j]) == 0 {
      assert p[j] == setup[j];
    }
    NeutralDepth(p);
  }

  /** The depth of the k-th prefix of a scoped trace, for a balanced body. */
  lemma ScopedPrefix(setup: seq<Op>, body: seq<Op>, k: nat)
    requires StackNeutral(setup) && Balanced(body)
    requires 1 <= k < |setup| + |body| + 2
    ensures Depth(([Push] + setup + body + [Pop])[..k]) >= 1
  {
    var ops := [Push] + setup + body + [Pop];
    if k <= |setup| + 1 {
      assert ops[..k] == [Push] + setup[..k - 1];
      NeutralPrefixDepth(setup, k - 1);
      DepthConcat([Push], setup[..k - 1]);
    } else {
      var j := k - 1 - |setup|;
      assert ops[..k] == ([Push] + setup) + body[..j];
      NeutralDepth(setup);
      DepthConcat([Push], setup);
      DepthConcat([Push] + setup, body[..j]);
    }
  }

  /**
   Wrapping a body, preceded by stack-neutral set-up calls, in a Push and a
   Pop leaves the body's net depth change. If the body is balanced, so is the
   whole, and the pushed entry stays on the stack from the first call until
   the last: every proper, non-empty prefix sits at depth at least one.
   */
  lemma Scoped(setup: seq<Op>, body: seq<Op>)
    requires StackNeutral(setup)
    ensures Depth([Push] + setup + body + [Pop]) == Depth(body)
    ensures Balanced(body) ==> Balanced([Push] + setup + body + [Pop])
    ensures Balanced(body) ==>
      forall k | 1 <= k < |setup| + |body| + 2 :: Depth(([Push] + setup + body + [Pop])[..k]) >= 1
  {
    var ops := [Push] + setup + body + [Pop];
    NeutralDepth(setup);
    DepthConcat([Push], setup);
    DepthConcat([Push] + setup, body);
    DepthConcat([Push] + setup + body, [Pop]);
    if Balanced(body) {
      forall k | 1 <= k < |ops| ensures Depth(ops[..k]) >= 1 {
        ScopedPrefix(setup, body, k);
      }
      forall k | 0 <= k <= |ops| ensures Depth(ops[..k]) >= 0 {
        if k == 0 {
          assert ops[..k] == [];
        } else if k == |ops| {
          assert ops[..k] == ops;
        }
      }
    }
  }
}
