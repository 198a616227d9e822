/** TranspilerForActivateAndHandleResult: the Harmony transpiler that
    redirects every call to BaseContextMenuEntry.ActivateAndHandleResult in
    a patched method to ProxyActivateAndHandleResult, pushing
    `isRemote = false` first. */
module CallRewriter {
  import opened SyncTypes

  datatype MethodRef = MethodRef(declaringType: TypeTag, name: string)

  datatype OpCode = Call | Callvirt | Ldc_I4_0 | OtherOp(code: nat)

  datatype Operand = NoOperand | MethodOperand(m: MethodRef) | OtherOperand(v: int)

  /** A Harmony CodeInstruction: its opcode, its operand and the branch labels on it. */
  datatype Instruction = Instruction(opcode: OpCode, operand: Operand, labels: seq<nat>)

  /** CodeInstruction.Calls: a `call` or `callvirt` whose operand is the method. */
  predicate Calls(ins: Instruction, m: MethodRef) {
    (ins.opcode == Call || ins.opcode == Callvirt) && ins.operand == MethodOperand(m)
  }

  /** What one instruction becomes: a matching call becomes two fresh
      instructions (without the original's labels), anything else itself. */
  function Replace(ins: Instruction, original: MethodRef, proxy: MethodRef): seq<Instruction> {
    if Calls(ins, original) then
      [Instruction(Ldc_I4_0, NoOperand, []), Instruction(Call, MethodOperand(proxy), [])]
    else
      [ins]
  }

  /** The instruction sequence the transpiler yields. */
  function Rewrite(s: seq<Instruction>, original: MethodRef, proxy: MethodRef): seq<Instruction> {
    if s == [] then [] else Rewrite(s[..|s| - 1], original, proxy) + Replace(s[|s| - 1], original, proxy)
  }

  /** The number of instructions that call `m`. */
  function CallCount(s: seq<Instruction>, m: MethodRef): nat {
    if s == [] then 0 else CallCount(s[..|s| - 1], m) + (if Calls(s[|s| - 1], m) then 1 else 0)
  }

  /** The output is one instruction longer than the input per matching call. */
  lemma {:induction false} RewriteLength(s: seq<Instruction>, original: MethodRef, proxy: MethodRef)
    ensures |Rewrite(s, original, proxy)| == |s| + CallCount(s, original)
  {
    if s != [] { RewriteLength(s[..|s| - 1], original, proxy); }
  }

  /** Where each input instruction lands: instruction `i` starts at `i` plus
      the number of matching calls before it; a matching call there is
      replaced by exactly `ldc.i4.0; call proxy`, anything else is copied
      unchanged, so every other instruction keeps its order. */
  lemma {:induction false} RewriteAt(s: seq<Instruction>, original: MethodRef, proxy: MethodRef, i: int)
    requires 0 <= i < |s|
    ensures var out, k := Rewrite(s, original, proxy), i + CallCount(s[..i], original);
      && |out| == |s| + CallCount(s, original)
      && (Calls(s[i], original) ==>
            k + 1 < |out|
            && out[k] == Instruction(Ldc_I4_0, NoOperand, [])
            && out[k + 1] == Instruction(Call, MethodOperand(proxy), []))
      && (!Calls(s[i], original) ==> k < |out| && out[k] == s[i])
  {
    var pre := s[..|s| - 1];
    RewriteLength(s, original, proxy);
    RewriteLength(pre, original, proxy);
    if i < |s| - 1 {
      RewriteAt(pre, original, proxy, i);
      assert pre[..i] == s[..i];
      assert pre[i] == s[i];
    } else {
      assert s[..i] == pre;
    }
  }

  /** With a proxy distinct from the original, no call to the original survives. */
  lemma {:induction false} RewriteRemovesCalls(s: seq<Instruction>, original: MethodRef, proxy: MethodRef)
    requires proxy != original
    ensures CallCount(Rewrite(s, original, proxy), original) == 0
  {
    if s != [] {
      var pre, last := s[..|s| - 1], s[|s| - 1];
      RewriteRemovesCalls(pre, original, proxy);
      CallCountConcat(Rewrite(pre, original, proxy), Replace(last, original, proxy), original);
      if Calls(last, original) {
        var r := Replace(last, original, proxy);
        assert r[..1] == [r[0]];
        assert CallCount(r, original) == CallCount([r[0]], original);
        assert [r[0]][..0] == [];
      } else {
        assert [last][..0] == [];
      }
    }
  }

  /** A method that never calls the original comes back unchanged. */
  lemma {:induction false} RewriteWithoutCalls(s: seq<Instruction>, original: MethodRef, proxy: MethodRef)
    requires CallCount(s, original) == 0
    ensures Rewrite(s, original, proxy) == s
  {
    if s != [] {
      RewriteWithoutCalls(s[..|s| - 1], original, proxy);
      assert s[..|s| - 1] + [s[|s| - 1]] == s;
    }
  }

  lemma {:induction false} CallCountConcat(x: seq<Instruction>, y: seq<Instruction>, m: MethodRef)
    ensures CallCount(x + y, m) == CallCount(x, m) + CallCount(y, m)
  {
    if y != [] {
      CallCountConcat(x, y[..|y| - 1], m);
      assert (x + y)[..|x + y| - 1] == x + y[..|y| - 1];
    } else {
      assert x + y == x;
    }
  }

  /** The transpiler: yields each instruction's replacement in order and
      reports an error exactly when the method held no matching call. */
  method TranspileActivateCalls(instructions: seq<Instruction>, original: MethodRef, proxy: MethodRef)
    returns (output: seq<Instruction>, errorLogged: bool)
    ensures output == Rewrite(instructions, original, proxy)
    ensures errorLogged <==> CallCount(instructions, original) == 0
  {
    var found := false;
    output := [];
    for i := 0 to |instructions|
      invariant output == Rewrite(instructions[..i], original, proxy)
      invariant found <==> CallCount(instructions[..i], original) > 0
    {
      var instruction := instructions[i];
      assert instructions[..i + 1][..i] == instructions[..i];
      if Calls(instruction, original) {
        found := true;
        output := output + [Instruction(Ldc_I4_0, NoOperand, []), Instruction(Call, MethodOperand(proxy), [])];
      } else {
        output := output + [instruction];
      }
    }
    assert instructions[..|instructions|] == instructions;
    errorLogged := !found;
  }
}
