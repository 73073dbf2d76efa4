/** What the system prompt shows the model, and in which order. */
module PromptTheorems {
  import opened Common
  import opened PyStrings
  import opened ContextBudget

  predicate ShowsAt(prompt: string, text: string, i: nat) {
    i + |text| <= |prompt| && prompt[i..i + |text|] == text
  }

  /** Where the k-th part of a join begins. */
  function StartOf(separator: string, parts: seq<string>, k: nat): nat
    requires k < |parts|
  {
    if k == 0 then 0 else |parts[0]| + |separator| + StartOf(separator, parts[1..], k - 1)
  }

  lemma {:induction false} JoinShowsPart(separator: string, parts: seq<string>, k: nat)
    requires k < |parts|
    ensures ShowsAt(Join(separator, parts), parts[k], StartOf(separator, parts, k))
  {
    if |parts| > 1 {
      var rest := Join(separator, parts[1..]);
      assert Join(separator, parts) == parts[0] + separator + rest;
      if k > 0 {
        JoinShowsPart(separator, parts[1..], k - 1);
        ShiftedShow(parts[0] + separator, rest, parts[k], StartOf(separator, parts[1..], k - 1));
      } else {
        assert Join(separator, parts)[..|parts[0]|] == parts[0];
      }
    } else {
      assert parts[0][..|parts[0]|] == parts[0];
    }
  }

  lemma ShiftedShow(head: string, rest: string, text: string, i: nat)
    requires ShowsAt(rest, text, i)
    ensures ShowsAt(head + rest, text, |head| + i)
  {
    var all := head + rest;
    assert all[|head|..] == rest;
    assert all[|head| + i..|head| + i + |text|] == rest[i..i + |text|];
  }

  lemma {:induction false} StartsIncrease(separator: string, parts: seq<string>, j: nat, k: nat)
    requires j < k < |parts| && separator != ""
    ensures StartOf(separator, parts, j) < StartOf(separator, parts, k)
  {
    if j > 0 {
      StartsIncrease(separator, parts[1..], j - 1, k - 1);
    }
  }

  /** The section of an optional text that is not blank. */
  function ShownSection(header: string, text: Option<string>): Option<string> {
    if text.Some? && Strip(text.value) != "" then Some(header + "\n" + Strip(text.value)) else None
  }

  function Listed(shown: Option<string>): seq<string> {
    if shown.Some? then [shown.value] else []
  }

  /** The prompt shows the stripped instructions first, then the memory, the summary and the knowledge that are not
      blank, each under its own header and in this order. */
  lemma PromptShowsEverything(instructions: string, x: Extras) returns (m: nat, s: nat, k: nat)
    ensures var prompt := BuildSystemPrompt(instructions, x);
      var memory, summary, knowledge := ShownSection("[Agent memory]", x.memory),
        ShownSection("[Conversation summary]", x.summary), ShownSection("[Retrieved context]", x.knowledge);
      && ShowsAt(prompt, Strip(instructions), 0)
      && (memory.Some? ==> ShowsAt(prompt, memory.value, m))
      && (summary.Some? ==> ShowsAt(prompt, summary.value, s))
      && (knowledge.Some? ==> ShowsAt(prompt, knowledge.value, k))
      && (memory.Some? && summary.Some? ==> m < s) && (summary.Some? && knowledge.Some? ==> s < k)
      && (memory.Some? && knowledge.Some? ==> m < k)
      && (Strip(instructions) == "" && memory.None? && summary.None? && knowledge.None? ==> prompt == "")
  {
    hide Strip, Join;
    var memory, summary, knowledge := ShownSection("[Agent memory]", x.memory),
      ShownSection("[Conversation summary]", x.summary), ShownSection("[Retrieved context]", x.knowledge);
    var head := if Strip(instructions) != "" then [Strip(instructions)] else [];
    var parts := head + Listed(memory) + Listed(summary) + Listed(knowledge);
    assert Sections(instructions, x) == parts;
    var atMemory, atSummary := |head|, |head| + |Listed(memory)|;
    var atKnowledge := atSummary + |Listed(summary)|;
    m, s, k := 0, 0, 0;
    if head != [] {
      JoinShowsPart("\n\n", parts, 0);
    } else {
      assert BuildSystemPrompt(instructions, x)[0..0] == "";
    }
    if memory.Some? {
      JoinShowsPart("\n\n", parts, atMemory);
      m := StartOf("\n\n", parts, atMemory);
    }
    if summary.Some? {
      JoinShowsPart("\n\n", parts, atSummary);
      s := StartOf("\n\n", parts, atSummary);
      if memory.Some? {
        StartsIncrease("\n\n", parts, atMemory, atSummary);
      }
    }
    if knowledge.Some? {
      JoinShowsPart("\n\n", parts, atKnowledge);
      k := StartOf("\n\n", parts, atKnowledge);
      if memory.Some? {
        StartsIncrease("\n\n", parts, atMemory, atKnowledge);
      }
      if summary.Some? {
        StartsIncrease("\n\n", parts, atSummary, atKnowledge);
      }
    }
    if parts == [] {
      EmptyJoin("\n\n");
    }
  }

  lemma EmptyJoin(separator: string)
    ensures Join(separator, []) == ""
  {
  }
}
