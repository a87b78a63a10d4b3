/** The agent's two topic classifiers: the keyword search a typed message goes
    through, and the narrower if/else chain applied to the text of a prompt card. */
module Classifier {
  import opened Text

  /** The response types, in the priority order the keyword search tries them. */
  datatype Topic = Hydraulic | Biomechanical | Biomedical | Structural | General

  /** The response-type string the agent passes to its response lookup. */
  function Tag(t: Topic): string {
    match t
    case Hydraulic => "hydraulic"
    case Biomechanical => "biomechanical"
    case Biomedical => "biomedical"
    case Structural => "structural"
    case General => "general"
  }

  /** Position of a topic in the priority order; `general` comes last. */
  function Rank(t: Topic): nat {
    match t
    case Hydraulic => 0
    case Biomechanical => 1
    case Biomedical => 2
    case Structural => 3
    case General => 4
  }

  /** The keyword list of a topic for typed messages; `general` has none. */
  function Keywords(t: Topic): seq<string> {
    match t
    case Hydraulic => ["water", "pump", "fluid", "flow", "hydraulic"]
    case Biomechanical => ["exoskeleton", "joint", "muscle", "movement", "biomechanical"]
    case Biomedical => ["circulatory", "heart", "blood", "medical", "wearable"]
    case Structural => ["bridge", "structure", "tensegrity", "architecture", "building"]
    case General => []
  }

  /** The keyword object of a typed message, entries in insertion order,
      which is the order the search visits them in. */
  const KeywordTable: seq<(Topic, seq<string>)> := [
    (Hydraulic, Keywords(Hydraulic)),
    (Biomechanical, Keywords(Biomechanical)),
    (Biomedical, Keywords(Biomedical)),
    (Structural, Keywords(Structural))
  ]

  /** Some word of `words` occurs in `text`. */
  predicate AnyIncluded(text: string, words: seq<string>) {
    exists k :: 0 <= k < |words| && Includes(text, words[k])
  }

  /** Topic `t` has a keyword in the (already lower-cased) text `low`. */
  predicate Hits(t: Topic, low: string) {
    AnyIncluded(low, Keywords(t))
  }

  /** The topic of the first entry of `table` with a word in `low`, or `general`. */
  function FirstMatch(table: seq<(Topic, seq<string>)>, low: string): Topic {
    if table == [] then General
    else if AnyIncluded(low, table[0].1) then table[0].0
    else FirstMatch(table[1..], low)
  }

  /** The entry that wins is the first one with a hit. */
  lemma {:induction false} FirstMatchAt(table: seq<(Topic, seq<string>)>, low: string, k: int)
    requires 0 <= k < |table|
    requires AnyIncluded(low, table[k].1)
    requires forall j :: 0 <= j < k ==> !AnyIncluded(low, table[j].1)
    ensures FirstMatch(table, low) == table[k].0
  {
    if k > 0 {
      assert !AnyIncluded(low, table[0].1);
      FirstMatchAt(table[1..], low, k - 1);
    }
  }

  /** With no hit anywhere in the table the search falls through to `general`. */
  lemma {:induction false} FirstMatchNone(table: seq<(Topic, seq<string>)>, low: string)
    requires forall j :: 0 <= j < |table| ==> !AnyIncluded(low, table[j].1)
    ensures FirstMatch(table, low) == General
  {
    if table != [] {
      FirstMatchNone(table[1..], low);
    }
  }

  /** The response type of a typed (already trimmed) message. */
  function ClassifyText(message: string): Topic {
    FirstMatch(KeywordTable, Lower(message))
  }

  /** The keyword search of a send, as a loop over the table that stops at the
      first entry with a hit; the lower-cased message is computed once, which
      gives the same text each word is tested against. */
  method ClassifyMessage(message: string) returns (responseType: Topic)
    ensures responseType == ClassifyText(message)
  {
    responseType := General;
    var low := Lower(message);
    var i := 0;
    while i < |KeywordTable|
      invariant 0 <= i <= |KeywordTable|
      invariant responseType == General
      invariant FirstMatch(KeywordTable[i..], low) == FirstMatch(KeywordTable, low)
    {
      var (topic, words) := KeywordTable[i];
      assert KeywordTable[i..][0] == (topic, words);
      if AnyIncluded(low, words) {
        responseType := topic;
        break;
      }
      assert KeywordTable[i..][1..] == KeywordTable[i + 1..];
      i := i + 1;
    }
  }

  /** The search, unrolled: the four table entries are tried in order. */
  lemma ClassifyTextChain(message: string)
    ensures var low := Lower(message);
      ClassifyText(message) ==
        if Hits(Hydraulic, low) then Hydraulic
        else if Hits(Biomechanical, low) then Biomechanical
        else if Hits(Biomedical, low) then Biomedical
        else if Hits(Structural, low) then Structural
        else General
  {
    var low := Lower(message);
    assert KeywordTable[0] == (Hydraulic, Keywords(Hydraulic));
    assert KeywordTable[1] == (Biomechanical, Keywords(Biomechanical));
    assert KeywordTable[2] == (Biomedical, Keywords(Biomedical));
    assert KeywordTable[3] == (Structural, Keywords(Structural));
    if Hits(Hydraulic, low) {
      FirstMatchAt(KeywordTable, low, 0);
    } else if Hits(Biomechanical, low) {
      FirstMatchAt(KeywordTable, low, 1);
    } else if Hits(Biomedical, low) {
      FirstMatchAt(KeywordTable, low, 2);
    } else if Hits(Structural, low) {
      FirstMatchAt(KeywordTable, low, 3);
    } else {
      FirstMatchNone(KeywordTable, low);
    }
  }

  /** A typed message is classified as `t` exactly when `t` is `general` or has
      a keyword in the lower-cased message, and no topic before `t` in the
      priority order has one. */
  lemma ClassifyTextSpec(message: string, t: Topic)
    ensures ClassifyText(message) == t <==>
      (t == General || Hits(t, Lower(message)))
      && forall u :: Rank(u) < Rank(t) ==> !Hits(u, Lower(message))
  {
    ClassifyTextChain(message);
  }

  /** A keyword of `t` in the lower-cased message bounds the result from above:
      the topic found is `t` or one tried before it. */
  lemma ClassifyTextAtMost(message: string, t: Topic)
    requires Hits(t, Lower(message))
    ensures Rank(ClassifyText(message)) <= Rank(t)
  {
    ClassifyTextSpec(message, ClassifyText(message));
  }

  /** The substrings the prompt-card chain tests for each topic. */
  function PromptKeywords(t: Topic): seq<string> {
    match t
    case Hydraulic => ["water pump", "fluid"]
    case Biomechanical => ["exoskeleton"]
    case Biomedical => ["circulatory", "wearable"]
    case Structural => ["bridge", "tensegrity"]
    case General => []
  }

  /** The response type of a prompt card: a case-sensitive if/else chain over
      the prompt text as it is, without lower-casing. */
  function ClassifyPrompt(prompt: string): Topic {
    if Includes(prompt, "water pump") || Includes(prompt, "fluid") then Hydraulic
    else if Includes(prompt, "exoskeleton") then Biomechanical
    else if Includes(prompt, "circulatory") || Includes(prompt, "wearable") then Biomedical
    else if Includes(prompt, "bridge") || Includes(prompt, "tensegrity") then Structural
    else General
  }

  /** The prompt chain is the same first-hit rule as the keyword search, over
      the narrower substrings and the unchanged text. */
  lemma ClassifyPromptSpec(prompt: string, t: Topic)
    ensures ClassifyPrompt(prompt) == t <==>
      (t == General || AnyIncluded(prompt, PromptKeywords(t)))
      && forall u :: Rank(u) < Rank(t) ==> !AnyIncluded(prompt, PromptKeywords(u))
  {
    assert AnyIncluded(prompt, PromptKeywords(Hydraulic)) <==>
      Includes(prompt, PromptKeywords(Hydraulic)[0]) || Includes(prompt, PromptKeywords(Hydraulic)[1]);
    assert AnyIncluded(prompt, PromptKeywords(Biomechanical)) <==>
      Includes(prompt, PromptKeywords(Biomechanical)[0]);
    assert AnyIncluded(prompt, PromptKeywords(Biomedical)) <==>
      Includes(prompt, PromptKeywords(Biomedical)[0]) || Includes(prompt, PromptKeywords(Biomedical)[1]);
    assert AnyIncluded(prompt, PromptKeywords(Structural)) <==>
      Includes(prompt, PromptKeywords(Structural)[0]) || Includes(prompt, PromptKeywords(Structural)[1]);
  }

  /** A keyword of `t` found in the raw text is still found after lower-casing
      it, since the keywords are lower-case letters only. */
  lemma KeywordSurvivesLower(t: Topic, k: int, text: string)
    requires 0 <= k < |Keywords(t)| && Includes(text, Keywords(t)[k])
    ensures Hits(t, Lower(text))
  {
    var key := Keywords(t)[k];
    KeywordPlain(t, k);
    LowerPlain(key);
    IncludesLower(text, key);
  }

  /** The keywords are lower-case ASCII words. */
  lemma KeywordPlain(t: Topic, k: int)
    requires 0 <= k < |Keywords(t)|
    ensures IsPlain(Keywords(t)[k])
  {
    match t
    case Hydraulic => HydraulicPlain(); WordPlain(Keywords(t), k);
    case Biomechanical => BiomechanicalPlain(); WordPlain(Keywords(t), k);
    case Biomedical => BiomedicalPlain(); WordPlain(Keywords(t), k);
    case Structural => StructuralPlain(); WordPlain(Keywords(t), k);
  }

  // One lemma per keyword list: each checks its five literal words against
  // `IsPlain`; `WordPlain` then picks out the word at a given index.
  lemma HydraulicPlain()
    ensures IsPlain(Keywords(Hydraulic)[0]) && IsPlain(Keywords(Hydraulic)[1]) && IsPlain(Keywords(Hydraulic)[2]) && IsPlain(Keywords(Hydraulic)[3]) && IsPlain(Keywords(Hydraulic)[4])
  {}

  lemma BiomechanicalPlain()
    ensures IsPlain(Keywords(Biomechanical)[0]) && IsPlain(Keywords(Biomechanical)[1]) && IsPlain(Keywords(Biomechanical)[2]) && IsPlain(Keywords(Biomechanical)[3]) && IsPlain(Keywords(Biomechanical)[4])
  {}

  lemma BiomedicalPlain()
    ensures IsPlain(Keywords(Biomedical)[0]) && IsPlain(Keywords(Biomedical)[1]) && IsPlain(Keywords(Biomedical)[2]) && IsPlain(Keywords(Biomedical)[3]) && IsPlain(Keywords(Biomedical)[4])
  {}

  lemma StructuralPlain()
    ensures IsPlain(Keywords(Structural)[0]) && IsPlain(Keywords(Structural)[1]) && IsPlain(Keywords(Structural)[2]) && IsPlain(Keywords(Structural)[3]) && IsPlain(Keywords(Structural)[4])
  {}

  /** One word of a five-word keyword list, checked position by position. */
  lemma WordPlain(words: seq<string>, k: int)
    requires |words| == 5 && 0 <= k < 5
    requires IsPlain(words[0]) && IsPlain(words[1]) && IsPlain(words[2])
    requires IsPlain(words[3]) && IsPlain(words[4])
    ensures IsPlain(words[k])
  {
  }

  /** Every prompt-card substring contains a keyword of the same topic, so a
      prompt-card hit is also a typed-message hit. */
  lemma PromptWordHasKeyword(t: Topic, prompt: string)
    requires AnyIncluded(prompt, PromptKeywords(t))
    ensures Hits(t, Lower(prompt))
  {
    match t
    case Hydraulic =>
      if Includes(prompt, "water pump") {
        assert Includes("water pump", "water");
        IncludesTransitive(prompt, "water pump", "water");
        KeywordSurvivesLower(t, 0, prompt);
      } else {
        KeywordSurvivesLower(t, 2, prompt);
      }
    case Biomechanical =>
      KeywordSurvivesLower(t, 0, prompt);
    case Biomedical =>
      if Includes(prompt, "circulatory") {
        KeywordSurvivesLower(t, 0, prompt);
      } else {
        KeywordSurvivesLower(t, 4, prompt);
      }
    case Structural =>
      if Includes(prompt, "bridge") {
        KeywordSurvivesLower(t, 0, prompt);
      } else {
        KeywordSurvivesLower(t, 2, prompt);
      }
  }

  /** The two classifiers deliberately differ, but only one way: a typed
      message never lands later in the priority order than the same text on
      a prompt card, because every prompt-card substring contains a keyword of
      the same topic and lower-casing cannot remove a lower-case keyword. */
  lemma TextNeverBehindPrompt(s: string)
    ensures Rank(ClassifyText(s)) <= Rank(ClassifyPrompt(s))
  {
    var t := ClassifyPrompt(s);
    ClassifyPromptSpec(s, t);
    if t != General {
      PromptWordHasKeyword(t, s);
      ClassifyTextAtMost(s, t);
    }
  }

  /** A word containing a character the text lacks does not occur in it. */
  lemma MissingCharExcludes(s: string, w: string, c: char)
    requires c in w && c !in s
    ensures !Includes(s, w)
  {
    IncludesIff(s, w);
  }

  /** `miss[k]` is a character of `words[k]` that `text` lacks, for every `k`:
      one witness character per word, so that `miss` read next to `words`
      shows why no word occurs (for "hello" and the hydraulic keywords,
      "wpffy" names the `w` of "water", the `p` of "pump", and so on). */
  predicate EveryWordMissesAChar(words: seq<string>, miss: string, text: string) {
    |words| == |miss|
    && (words == [] || (miss[0] in words[0] && miss[0] !in text
                        && EveryWordMissesAChar(words[1..], miss[1..], text)))
  }

  /** Words that each contain a character the text lacks do not occur in it. */
  lemma {:induction false} NoneIncluded(text: string, words: seq<string>, miss: string)
    requires EveryWordMissesAChar(words, miss, text)
    ensures !AnyIncluded(text, words)
  {
    if words != [] {
      MissingCharExcludes(text, words[0], miss[0]);
      NoneIncluded(text, words[1..], miss[1..]);
      assert forall k :: 1 <= k < |words| ==> words[k] == words[1..][k - 1];
    }
  }

  /** A capital letter followed by lower-case letters and spaces loses only
      the capital. */
  lemma CapitalisedLower(w: string, rest: string)
    requires |w| > 0 && 'A' <= w[0] <= 'Z' && w[1..] == rest
    requires IsPlain(rest)
    ensures Lower(w) == [(w[0] as int + 32) as char] + rest
  {
    assert w == [w[0]] + rest;
    LowerAppend([w[0]], rest);
    LowerPlain(rest);
  }

  /** "Water Pump" typed is hydraulic: lower-casing turns its first word into
      "water". */
  lemma WaterPumpTyped(s: string)
    requires s == "Water Pump"
    ensures ClassifyText(s) == Hydraulic
  {
    var head, tail := s[..5], s[5..];
    assert s == head + tail;
    LowerAppend(head, tail);
    CapitalisedLower(head, "ater");
    var low := Lower(s);
    assert low[..5] == Keywords(Hydraulic)[0];
    assert OccursAt(low, Keywords(Hydraulic)[0], 0);
    IncludesIff(low, Keywords(Hydraulic)[0]);
    ClassifyTextSpec(s, Hydraulic);
  }

  lemma WaterPumpMissesHydraulic() ensures EveryWordMissesAChar(PromptKeywords(Hydraulic), "wf", "Water Pump") {}
  lemma WaterPumpMissesBiomechanical() ensures EveryWordMissesAChar(PromptKeywords(Biomechanical), "x", "Water Pump") {}
  lemma WaterPumpMissesBiomedical() ensures EveryWordMissesAChar(PromptKeywords(Biomedical), "cw", "Water Pump") {}
  lemma WaterPumpMissesStructural() ensures EveryWordMissesAChar(PromptKeywords(Structural), "bg", "Water Pump") {}

  /** "Water Pump" on a prompt card is general: the chain only looks for the
      lower-case "water pump", and none of its other substrings occur. */
  lemma WaterPumpCard(s: string)
    requires s == "Water Pump"
    ensures ClassifyPrompt(s) == General
  {
    WaterPumpMissesHydraulic();
    WaterPumpMissesBiomechanical();
    WaterPumpMissesBiomedical();
    WaterPumpMissesStructural();
    NoneIncluded(s, PromptKeywords(Hydraulic), "wf");
    NoneIncluded(s, PromptKeywords(Biomechanical), "x");
    NoneIncluded(s, PromptKeywords(Biomedical), "cw");
    NoneIncluded(s, PromptKeywords(Structural), "bg");
    ClassifyPromptSpec(s, General);
  }

  lemma MuscleAndHeartLower(s: string)
    requires s == "muscle and heart"
    ensures Lower(s) == s
  {
    LowerPlain(s);
  }

  lemma MuscleAndHeartMissesHydraulic()
    ensures EveryWordMissesAChar(Keywords(Hydraulic), "wpffy", "muscle and heart")
  {}

  lemma MuscleAndHeartNoHydraulic(s: string)
    requires s == "muscle and heart"
    ensures !Hits(Hydraulic, Lower(s))
  {
    MuscleAndHeartLower(s);
    MuscleAndHeartMissesHydraulic();
    NoneIncluded(s, Keywords(Hydraulic), "wpffy");
  }

  lemma MuscleAndHeartHitsBiomechanical(s: string)
    requires s == "muscle and heart"
    ensures Hits(Biomechanical, Lower(s))
  {
    assert s[..6] == Keywords(Biomechanical)[2];
    assert OccursAt(s, Keywords(Biomechanical)[2], 0);
    IncludesIff(s, Keywords(Biomechanical)[2]);
    KeywordSurvivesLower(Biomechanical, 2, s);
  }

  /** "muscle and heart" has a biomechanical and a biomedical keyword; the
      earlier topic in the priority order wins. */
  lemma MuscleAndHeartTyped(s: string)
    requires s == "muscle and heart"
    ensures ClassifyText(s) == Biomechanical
  {
    MuscleAndHeartNoHydraulic(s);
    MuscleAndHeartHitsBiomechanical(s);
    ClassifyTextSpec(s, Biomechanical);
  }

  lemma HelloMissesHydraulic() ensures EveryWordMissesAChar(Keywords(Hydraulic), "wpffy", "hello") {}
  lemma HelloMissesBiomechanical() ensures EveryWordMissesAChar(Keywords(Biomechanical), "xjmmb", "hello") {}
  lemma HelloMissesBiomedical() ensures EveryWordMissesAChar(Keywords(Biomedical), "cabmw", "hello") {}
  lemma HelloMissesStructural() ensures EveryWordMissesAChar(Keywords(Structural), "bstab", "hello") {}

  /** "hello" contains no keyword of any topic and is general. */
  lemma HelloTyped(s: string)
    requires s == "hello"
    ensures ClassifyText(s) == General
  {
    LowerPlain(s);
    HelloMissesHydraulic();
    HelloMissesBiomechanical();
    HelloMissesBiomedical();
    HelloMissesStructural();
    NoneIncluded(s, Keywords(Hydraulic), "wpffy");
    NoneIncluded(s, Keywords(Biomechanical), "xjmmb");
    NoneIncluded(s, Keywords(Biomedical), "cabmw");
    NoneIncluded(s, Keywords(Structural), "bstab");
    assert Lower(s) == s;
    ClassifyTextSpec(s, General);
  }

  /** "I need a portable water pump" is hydraulic: it contains "water" as typed,
      and lower-casing keeps it. */
  lemma PortablePumpTyped(s: string)
    requires s == "I need a portable water pump"
    ensures ClassifyText(s) == Hydraulic
  {
    assert s[18..23] == Keywords(Hydraulic)[0];
    assert OccursAt(s, Keywords(Hydraulic)[0], 18);
    IncludesIff(s, Keywords(Hydraulic)[0]);
    KeywordSurvivesLower(Hydraulic, 0, s);
    ClassifyTextSpec(s, Hydraulic);
  }
}
