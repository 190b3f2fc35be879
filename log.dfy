/**
 * The logger: two ordered lists of outputters and a priority threshold.
 * Always-at-head outputters see every message that passes the filter;
 * normal outputters see it in turn until one of them stops it.
 */
module Logging {
  import opened Wrappers
  import Levels
  import Marker
  import opened Chain

  /**
   * The list after removing the first occurrence of `o`, the rest kept in
   * order; the list itself when `o` is absent.
   */
  function RemoveFirst(s: seq<OutputterId>, o: OutputterId): (r: seq<OutputterId>)
    ensures o !in s ==> r == s
    ensures o in s ==> |r| == |s| - 1
    ensures multiset(r) == multiset(s) - multiset{o}
  {
    if s == [] then []
    else
      assert s == [s[0]] + s[1..];
      if s[0] == o then s[1..]
      else [s[0]] + RemoveFirst(s[1..], o)
  }

  /** Removing at the first index that holds `o` is what `RemoveFirst` does. */
  lemma {:induction false} RemoveFirstAt(s: seq<OutputterId>, o: OutputterId, i: nat)
    requires i < |s| && s[i] == o && o !in s[..i]
    ensures RemoveFirst(s, o) == s[..i] + s[i + 1..]
  {
    if i > 0 {
      assert s[1..][..i - 1] == s[1..i];
      assert s[..i] == [s[0]] + s[1..i];
      RemoveFirstAt(s[1..], o, i - 1);
    }
  }

  /** An outputter listed once is gone after it is removed. */
  lemma RemoveUnique(s: seq<OutputterId>, o: OutputterId)
    requires multiset(s)[o] <= 1
    ensures o !in RemoveFirst(s, o)
  {
  }

  /**
   * The filter: a Print message always passes; any other passes when its
   * level is no less urgent than the threshold.
   */
  predicate Passes(level: int, maxPriority: int) {
    level == Levels.Print || level <= maxPriority
  }

  /**
   * The message outputters receive: the expanded text, prefixed by file and
   * line only when a file is given and the level is not Print.
   */
  function Render(level: int, file: Option<string>, line: int, text: string): Message
  {
    Message(if file.Some? && level != Levels.Print then Some(Origin(file.value, line)) else None, text)
  }

  /** The index of the first `o` in `s`, or `|s|` when there is none. */
  method FindFirst(s: seq<OutputterId>, o: OutputterId) returns (i: nat)
    ensures i <= |s| && o !in s[..i]
    ensures i < |s| ==> s[i] == o
    ensures i == |s| <==> o !in s
  {
    i := 0;
    while i < |s| && s[i] != o
      invariant i <= |s| && o !in s[..i]
    {
      assert s[..i + 1] == s[..i] + [s[i]];
      i := i + 1;
    }
    assert i == |s| ==> s[..i] == s;
  }

  class Log {
    /** The normal outputters, head first. */
    var outputters: seq<OutputterId>
    /** The always-at-head outputters, head first. */
    var alwaysOutputters: seq<OutputterId>
    /** The least urgent level that is still output. */
    var maxPriority: int

    /**
     * A new logger: the console outputter is its one normal outputter, no
     * outputter is always-at-head, and the threshold is the build's default.
     */
    constructor (console: OutputterId, defaultPriority: int)
      ensures outputters == [console] && alwaysOutputters == []
      ensures maxPriority == defaultPriority
    {
      outputters := [console];
      alwaysOutputters := [];
      maxPriority := defaultPriority;
    }

    /** Adds `adopted` at the head of the list chosen by `alwaysAtHead`. */
    method Insert(adopted: OutputterId, alwaysAtHead: bool)
      modifies this
      ensures alwaysAtHead ==> alwaysOutputters == [adopted] + old(alwaysOutputters) && outputters == old(outputters)
      ensures !alwaysAtHead ==> outputters == [adopted] + old(outputters) && alwaysOutputters == old(alwaysOutputters)
      ensures maxPriority == old(maxPriority)
    {
      if alwaysAtHead {
        alwaysOutputters := [adopted] + alwaysOutputters;
      } else {
        outputters := [adopted] + outputters;
      }
    }

    /**
     * Removes the first occurrence of `orphaned`: from the normal list when
     * it is there, otherwise from the always-at-head list. Nothing changes
     * when it is in neither.
     */
    method Remove(orphaned: OutputterId)
      modifies this
      ensures orphaned in old(outputters) ==>
        outputters == RemoveFirst(old(outputters), orphaned) && alwaysOutputters == old(alwaysOutputters)
      ensures orphaned !in old(outputters) ==>
        outputters == old(outputters) && alwaysOutputters == RemoveFirst(old(alwaysOutputters), orphaned)
      ensures maxPriority == old(maxPriority)
    {
      var i := FindFirst(outputters, orphaned);
      if i < |outputters| {
        RemoveFirstAt(outputters, orphaned, i);
        outputters := outputters[..i] + outputters[i + 1..];
      } else {
        var j := FindFirst(alwaysOutputters, orphaned);
        if j < |alwaysOutputters| {
          RemoveFirstAt(alwaysOutputters, orphaned, j);
          alwaysOutputters := alwaysOutputters[..j] + alwaysOutputters[j + 1..];
        }
      }
    }

    /**
     * Removes the head of the list chosen by `alwaysAtHead`; nothing changes
     * when that list is empty.
     */
    method PopFront(alwaysAtHead: bool)
      modifies this
      ensures alwaysAtHead ==>
        outputters == old(outputters) &&
        alwaysOutputters == (if old(alwaysOutputters) == [] then [] else old(alwaysOutputters)[1..])
      ensures !alwaysAtHead ==>
        alwaysOutputters == old(alwaysOutputters) &&
        outputters == (if old(outputters) == [] then [] else old(outputters)[1..])
      ensures maxPriority == old(maxPriority)
    {
      if alwaysAtHead {
        if alwaysOutputters != [] {
          alwaysOutputters := alwaysOutputters[1..];
        }
      } else {
        if outputters != [] {
          outputters := outputters[1..];
        }
      }
    }

    /** The threshold: the least urgent level other than Print that still passes. */
    function GetFilter(): (threshold: int)
      reads this
      ensures forall level :: level != Levels.Print ==> (Passes(level, maxPriority) <==> level <= threshold)
    {
      maxPriority
    }

    /** Sets the threshold to `priority`, whatever its value. */
    method SetFilter(priority: int)
      modifies this
      ensures GetFilter() == priority
      ensures outputters == old(outputters) && alwaysOutputters == old(alwaysOutputters)
    {
      maxPriority := priority;
    }

    /**
     * Sets the threshold to the level called `name` and reports whether the
     * name is known; a null name is accepted and changes nothing.
     */
    method SetFilterByName(name: Option<string>) returns (recognized: bool)
      modifies this
      ensures recognized <==> name.None? || name.value in Levels.Names
      ensures name.Some? && recognized ==> Levels.NameOf(GetFilter()) == name
      ensures !(name.Some? && recognized) ==> GetFilter() == old(GetFilter())
      ensures outputters == old(outputters) && alwaysOutputters == old(alwaysOutputters)
    {
      match name {
        case None =>
          recognized := true;
        case Some(n) =>
          var level := Levels.LevelNamed(n);
          if level.Some? {
            maxPriority := level.value;
            recognized := true;
          } else {
            recognized := false;
          }
      }
    }

    /** The name of the threshold, or None when it has none. */
    function GetFilterName(): (name: Option<string>)
      reads this
      ensures name.Some? <==> Levels.IsNamed(GetFilter())
      ensures name.Some? ==> Levels.LevelNamed(name.value) == Some(GetFilter())
    {
      Levels.NameOf(maxPriority)
    }

    /**
     * Hands `msg` at `priority` to the outputters: every always-at-head one
     * (its verdict ignored), then the normal ones until one returns false.
     */
    method Output(priority: int, msg: Message, write: Verdict) returns (calls: seq<Call>)
      ensures calls == Dispatch(alwaysOutputters, outputters, write, priority, msg)
    {
      calls := [];
      var i := 0;
      while i < |alwaysOutputters|
        invariant i <= |alwaysOutputters| && |calls| == i
        invariant forall k :: 0 <= k < i ==> calls[k] == Call(alwaysOutputters[k], priority, msg)
      {
        calls := calls + [Call(alwaysOutputters[i], priority, msg)];
        i := i + 1;
      }
      assert calls == AlwaysCalls(alwaysOutputters, priority, msg);
      var j := 0;
      var more := true;
      while j < |outputters| && more
        invariant j <= |outputters|
        invariant calls + (if more then NormalChain(outputters[j..], write, priority, msg) else [])
                  == Dispatch(alwaysOutputters, outputters, write, priority, msg)
      {
        assert outputters[j..][1..] == outputters[j + 1..];
        calls := calls + [Call(outputters[j], priority, msg)];
        more := write(outputters[j], priority, msg);
        j := j + 1;
      }
    }

    /**
     * Logs `format`: decodes its marker, drops the message when the filter
     * rejects its level, otherwise renders it (file and line unless the file
     * is null or the level is Print) and outputs it. `expand` stands for the
     * printf-style expansion of the template against the arguments.
     */
    method Print(file: Option<string>, line: int, format: string, expand: string -> string, write: Verdict)
      returns (calls: seq<Call>)
      ensures var d := Marker.Decode(format);
        !Passes(d.level, maxPriority) ==> calls == []
      ensures var d := Marker.Decode(format);
        Passes(d.level, maxPriority) ==>
          calls == Dispatch(alwaysOutputters, outputters, write, d.level, Render(d.level, file, line, expand(d.template)))
      ensures forall c: Call :: c in calls ==>
        var d := Marker.Decode(format);
        c.level == d.level && c.message.text == expand(d.template) &&
        (c.message.origin.Some? <==> file.Some? && d.level != Levels.Print)
    {
      var d := Marker.Decode(format);
      if !Passes(d.level, maxPriority) {
        return [];
      }
      var msg := Render(d.level, file, line, expand(d.template));
      calls := Output(d.level, msg, write);
      DispatchCalls(alwaysOutputters, outputters, write, d.level, msg);
    }
  }

  /**
   * A Print message reaches the outputters whatever the threshold, and
   * without a file:line prefix even when a file is given.
   */
  lemma PrintAlwaysDelivered(template: string, maxPriority: int, file: Option<string>, line: int, text: string)
    ensures Passes(Marker.Decode(Marker.Encode(Levels.Print, template)).level, maxPriority)
    ensures Render(Marker.Decode(Marker.Encode(Levels.Print, template)).level, file, line, text).origin.None?
  {
    Marker.DecodeEncode(Levels.Print, template);
  }

  /**
   * Raising the threshold never drops a message that passed before, and a
   * non-Print level beyond the threshold never passes.
   */
  lemma FilterMonotone(level: int, t1: int, t2: int)
    requires t1 <= t2
    ensures Passes(level, t1) ==> Passes(level, t2)
    ensures level != Levels.Print && level > t2 ==> !Passes(level, t1)
  {
  }

  /**
   * An outputter listed at most once, once removed, is not called by any
   * later dispatch, whichever list it was removed from.
   */
  lemma RemovedNeverCalled(always: seq<OutputterId>, normal: seq<OutputterId>, o: OutputterId,
                           write: Verdict, level: int, msg: Message)
    requires multiset(always + normal)[o] <= 1
    ensures o in normal ==>
      forall c: Call :: c in Dispatch(always, RemoveFirst(normal, o), write, level, msg) ==> c.outputter != o
    ensures o !in normal ==>
      forall c: Call :: c in Dispatch(RemoveFirst(always, o), normal, write, level, msg) ==> c.outputter != o
  {
    assert multiset(always + normal) == multiset(always) + multiset(normal);
    if o in normal {
      assert o !in always;
      RemoveUnique(normal, o);
      DispatchCalls(always, RemoveFirst(normal, o), write, level, msg);
    } else {
      RemoveUnique(always, o);
      DispatchCalls(RemoveFirst(always, o), normal, write, level, msg);
    }
  }

  /**
   * The popped head of the list chosen by `alwaysAtHead`, listed nowhere
   * else, is not called by any later dispatch.
   */
  lemma PoppedNeverCalled(always: seq<OutputterId>, normal: seq<OutputterId>, alwaysAtHead: bool,
                          write: Verdict, level: int, msg: Message)
    requires alwaysAtHead ==> always != [] && multiset(always + normal)[always[0]] == 1
    requires !alwaysAtHead ==> normal != [] && multiset(always + normal)[normal[0]] == 1
    ensures alwaysAtHead ==>
      forall c: Call :: c in Dispatch(always[1..], normal, write, level, msg) ==> c.outputter != always[0]
    ensures !alwaysAtHead ==>
      forall c: Call :: c in Dispatch(always, normal[1..], write, level, msg) ==> c.outputter != normal[0]
  {
    assert multiset(always + normal) == multiset(always) + multiset(normal);
    if alwaysAtHead {
      assert always == [always[0]] + always[1..];
      assert multiset(always) == multiset{always[0]} + multiset(always[1..]);
      DispatchCalls(always[1..], normal, write, level, msg);
    } else {
      assert normal == [normal[0]] + normal[1..];
      assert multiset(normal) == multiset{normal[0]} + multiset(normal[1..]);
      DispatchCalls(always, normal[1..], write, level, msg);
    }
  }
}
