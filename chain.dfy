/**
 * What one dispatch does: the outputters called, in order, and what each
 * receives. Always-at-head outputters are all called first and their
 * verdicts are ignored; normal outputters are then called front to back
 * until one of them returns false.
 */
module Chain {
  import opened Wrappers

  /** An outputter, known only by its identity (the adopted pointer). */
  type OutputterId = nat

  /** The file and line a message is prefixed with. */
  datatype Origin = Origin(file: string, line: int)

  /** A rendered message: its optional file:line prefix and its expanded text. */
  datatype Message = Message(origin: Option<Origin>, text: string)

  /** One call of an outputter's `write(level, message)`. */
  datatype Call = Call(outputter: OutputterId, level: int, message: Message)

  /**
   * The verdict `write` returns: true lets the message go on to the next
   * normal outputter. The outputters' own behaviour is outside the model,
   * so it is an oracle.
   */
  type Verdict = (OutputterId, int, Message) -> bool

  /** The calls made on the always-at-head outputters: every one, in order. */
  function AlwaysCalls(always: seq<OutputterId>, level: int, msg: Message): (r: seq<Call>)
    ensures |r| == |always|
    ensures forall i :: 0 <= i < |r| ==> r[i] == Call(always[i], level, msg)
  {
    if always == [] then []
    else [Call(always[0], level, msg)] + AlwaysCalls(always[1..], level, msg)
  }

  /**
   * The calls made on the normal outputters: a prefix of the list, in order,
   * in which every outputter but the last let the message through, and which
   * ends early only after an outputter returned false.
   */
  function NormalChain(normal: seq<OutputterId>, write: Verdict, level: int, msg: Message): (r: seq<Call>)
    ensures |r| <= |normal|
    ensures forall i :: 0 <= i < |r| ==> r[i] == Call(normal[i], level, msg)
    ensures forall i :: 0 <= i < |r| - 1 ==> write(normal[i], level, msg)
    ensures |r| < |normal| ==> 0 < |r| && !write(normal[|r| - 1], level, msg)
  {
    if normal == [] then []
    else
      var head := Call(normal[0], level, msg);
      if write(normal[0], level, msg) then [head] + NormalChain(normal[1..], write, level, msg)
      else [head]
  }

  /**
   * The calls one dispatch of `(level, msg)` makes: one per always-at-head
   * outputter, in order, then at most one per normal outputter.
   */
  function Dispatch(always: seq<OutputterId>, normal: seq<OutputterId>, write: Verdict,
                    level: int, msg: Message): (r: seq<Call>)
    ensures |always| <= |r| <= |always| + |normal|
    ensures forall i :: 0 <= i < |always| ==> r[i] == Call(always[i], level, msg)
    ensures forall i :: |always| <= i < |r| ==> r[i] == Call(normal[i - |always|], level, msg)
  {
    AlwaysCalls(always, level, msg) + NormalChain(normal, write, level, msg)
  }

  /**
   * A normal outputter is reached exactly when every normal outputter before
   * it returned true.
   */
  lemma {:induction false} NormalReached(normal: seq<OutputterId>, write: Verdict, level: int, msg: Message, i: nat)
    requires i < |normal|
    ensures i < |NormalChain(normal, write, level, msg)| <==>
            forall j :: 0 <= j < i ==> write(normal[j], level, msg)
  {
    if i > 0 {
      NormalReached(normal[1..], write, level, msg, i - 1);
      if write(normal[0], level, msg) {
        assert forall j :: 0 <= j < i - 1 ==> normal[1..][j] == normal[j + 1];
      }
    }
  }

  /**
   * Once a normal outputter returns false, no normal outputter after it is
   * called for that message.
   */
  lemma StopsAtVeto(normal: seq<OutputterId>, write: Verdict, level: int, msg: Message, i: nat)
    requires i < |normal| && !write(normal[i], level, msg)
    ensures |NormalChain(normal, write, level, msg)| <= i + 1
  {
  }

  /**
   * Every always-at-head outputter is called, in order, before any normal
   * outputter, and then the normal chain follows.
   */
  lemma AlwaysFirst(always: seq<OutputterId>, normal: seq<OutputterId>, write: Verdict, level: int, msg: Message)
    ensures var d := Dispatch(always, normal, write, level, msg);
      |always| <= |d| &&
      (forall i :: 0 <= i < |always| ==> d[i] == Call(always[i], level, msg)) &&
      d[|always|..] == NormalChain(normal, write, level, msg)
  {
    var d := Dispatch(always, normal, write, level, msg);
    assert d[..|always|] == AlwaysCalls(always, level, msg);
  }

  /**
   * The verdicts of the always-at-head outputters never matter: two oracles
   * that agree on the normal outputters give the same dispatch.
   */
  lemma {:induction false} OnlyNormalVerdictsMatter(always: seq<OutputterId>, normal: seq<OutputterId>,
                                                    w1: Verdict, w2: Verdict, level: int, msg: Message)
    requires forall i :: 0 <= i < |normal| ==> w1(normal[i], level, msg) == w2(normal[i], level, msg)
    ensures Dispatch(always, normal, w1, level, msg) == Dispatch(always, normal, w2, level, msg)
  {
    NormalChainAgrees(normal, w1, w2, level, msg);
  }

  lemma {:induction false} NormalChainAgrees(normal: seq<OutputterId>, w1: Verdict, w2: Verdict, level: int, msg: Message)
    requires forall i :: 0 <= i < |normal| ==> w1(normal[i], level, msg) == w2(normal[i], level, msg)
    ensures NormalChain(normal, w1, level, msg) == NormalChain(normal, w2, level, msg)
  {
    if normal != [] {
      assert w1(normal[0], level, msg) == w2(normal[0], level, msg);
      assert forall i :: 0 <= i < |normal[1..]| ==> normal[1..][i] == normal[i + 1];
      NormalChainAgrees(normal[1..], w1, w2, level, msg);
    }
  }

  /**
   * Every call of a dispatch carries the dispatched level and message, and
   * goes to an outputter that is in one of the two lists.
   */
  lemma DispatchCalls(always: seq<OutputterId>, normal: seq<OutputterId>, write: Verdict, level: int, msg: Message)
    ensures forall c: Call :: c in Dispatch(always, normal, write, level, msg) ==>
      c.level == level && c.message == msg && (c.outputter in always || c.outputter in normal)
  {
    var a := AlwaysCalls(always, level, msg);
    var n := NormalChain(normal, write, level, msg);
    forall c: Call | c in a + n
      ensures c.level == level && c.message == msg && (c.outputter in always || c.outputter in normal)
    {
      if c in a {
        var i :| 0 <= i < |a| && a[i] == c;
        assert c.outputter == always[i];
      } else {
        var i :| 0 <= i < |n| && n[i] == c;
        assert c.outputter == normal[i];
      }
    }
  }

  /**
   * A normal chain [o1, o2, o3] (o1 most recently inserted) in which o2
   * returns false: o1 and o2 are called, o3 is not.
   */
  lemma VetoExample(o1: OutputterId, o2: OutputterId, o3: OutputterId, write: Verdict, level: int, msg: Message)
    requires write(o1, level, msg) && !write(o2, level, msg)
    ensures NormalChain([o1, o2, o3], write, level, msg) == [Call(o1, level, msg), Call(o2, level, msg)]
  {
    var s := [o1, o2, o3];
    assert s[1..] == [o2, o3];
  }
}
