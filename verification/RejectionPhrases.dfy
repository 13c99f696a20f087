/** Which phrases occur in a printed capability refusal, and where: shown by marks
    (a capital letter, a colon, an equals sign) whose neighbourhood tells the phrases
    apart, one piece of the message at a time. */
module RejectionPhrases {
  import opened Wrappers
  import opened Sequences
  import opened Names
  import opened TextSearch
  import opened RejectionText

  // ----- None of the other phrases occurs -----

  /** A capital M that begins a word behind a letter is the one of "only MCP tools" or
      "only MCP capabilities". */
  predicate IsLaterMark(s: string, k: nat)
    requires k < |s|
  {
    && 2 <= k
    && (s[k - 1] == ' ' && s[k - 2] != ',' && s[k - 2] != ':' && s[k - 2] != '>' ==>
          k < |s| - 4 && s[k - 2] == 'y' && (s[k + 4] == 't' || s[k + 4] == 'c'))
  }

  predicate LaterMarks(s: string) {
    forall k | 0 <= k < |s| :: s[k] == 'M' ==> IsLaterMark(s, k)
  }

  lemma LaterMarksConcat(a: string, b: string)
    requires LaterMarks(a) && LaterMarks(b)
    ensures LaterMarks(a + b)
  {
    var s := a + b;
    forall k | 0 <= k < |s| && s[k] == 'M' ensures IsLaterMark(s, k) {
      if k < |a| {
        assert IsLaterMark(a, k);
      } else {
        assert IsLaterMark(b, k - |a|);
      }
    }
  }

  /** No M of a printed list begins a word behind a letter. */
  lemma ListMarks(lead: string, list: string)
    requires LaterMarks(lead) && IsLead(lead) && BlanksFollowCommas(list)
    ensures LaterMarks(lead + list)
  {
    var s := lead + list;
    forall k | 0 <= k < |s| && s[k] == 'M' ensures IsLaterMark(s, k) {
      if k < |lead| {
        assert IsLaterMark(lead, k);
      } else if s[k - 1] == ' ' {
        BlankBehind(lead, list, k - 1);
      }
    }
  }

  /** `s` begins with the subject of the capability messages. */
  ghost predicate IsReport(s: string) {
    exists rest :: s == SUBJECT + rest && LaterMarks(rest)
  }

  lemma SubjectCapitals()
    ensures |SUBJECT| == 37 && OnlyMark(SUBJECT, 'M', 20) && OnlyMark(SUBJECT, 'H', 24)
  {
  }

  lemma SubjectOthers()
    ensures |SUBJECT| == 37 && SUBJECT[18] == 'd' && SUBJECT[19] == ' ' && SUBJECT[22] == 'P'
    ensures ':' !in SUBJECT && '=' !in SUBJECT
  {
  }

  lemma SubjectMark()
    ensures |SUBJECT| == 37 && OnlyMark(SUBJECT, 'M', 20) && OnlyMark(SUBJECT, 'H', 24)
    ensures SUBJECT[18] == 'd' && SUBJECT[19] == ' ' && SUBJECT[22] == 'P' && ':' !in SUBJECT && '=' !in SUBJECT
  {
    hide SUBJECT;
    SubjectCapitals();
    SubjectOthers();
  }

  lemma MarksInReport(s: string, k: nat)
    requires IsReport(s) && k < |s| && s[k] == 'M'
    ensures (k == 20 && k < |s| - 4 && s[18] == 'd' && s[24] == 'H') || IsLaterMark(s, k)
  {
    SubjectMark();
    var rest :| s == SUBJECT + rest && LaterMarks(rest);
    hide SUBJECT;
    if k >= |SUBJECT| {
      assert IsLaterMark(rest, k - |SUBJECT|);
    } else {
      assert SUBJECT[k] == 'M';
    }
  }

  lemma ForeignAbsent(s: string, phrase: string, p: nat)
    requires IsReport(s) && 2 <= p < |phrase| - 4 && phrase[p] == 'M' && InWordFrom(phrase, p, p - 1)
    requires !(phrase[p - 2] == 'd' && phrase[p + 4] == 'H')
    requires !(phrase[p - 2] == 'y' && (phrase[p + 4] == 't' || phrase[p + 4] == 'c'))
    ensures !Contains(s, phrase)
  {
    hide IsReport, SUBJECT, OccursAt;
    if i :| 0 <= i <= |s| && OccursAt(s, phrase, i) {
      OccursInside(s, phrase, i);
      OccursChar(s, phrase, i, p);
      OccursChar(s, phrase, i, p - 1);
      OccursChar(s, phrase, i, p - 2);
      OccursChar(s, phrase, i, p + 4);
      MarksInReport(s, i + p);
    }
  }

  lemma DisabledPhrasesAbsent(s: string)
    requires IsReport(s)
    ensures !Contains(s, DISABLED) && !Contains(s, SIDE_EFFECTS_OFF)
  {
    hide IsReport, Contains;
    ForeignAbsent(s, DISABLED, 8);
    ForeignAbsent(s, SIDE_EFFECTS_OFF, 8);
  }

  lemma PolicyPhrasesAbsent(s: string)
    requires IsReport(s)
    ensures !Contains(s, NO_SERVER) && !Contains(s, NO_HTTP)
  {
    hide IsReport, Contains;
    ForeignAbsent(s, NO_SERVER, 8);
    ForeignAbsent(s, NO_HTTP, 8);
  }

  lemma ToolPhrasesAbsent(s: string)
    requires IsReport(s)
    ensures !Contains(s, NO_DYNAMIC) && !Contains(s, NO_SIDE_EFFECT)
  {
    hide IsReport, Contains;
    ForeignAbsent(s, NO_DYNAMIC, 46);
    ForeignAbsent(s, NO_SIDE_EFFECT, 35);
  }

  lemma BridgePhraseAbsent(s: string)
    requires IsReport(s)
    ensures !Contains(s, NO_STDIO_BRIDGE)
  {
    hide IsReport, Contains;
    ForeignAbsent(s, NO_STDIO_BRIDGE, 46);
  }

  lemma StdioPhrasesAbsent(s: string)
    requires IsReport(s)
    ensures !Contains(s, NO_STDIO_DYNAMIC) && !Contains(s, STDIO_ONLY)
  {
    hide IsReport, Contains;
    ForeignAbsent(s, NO_STDIO_DYNAMIC, 50);
    ForeignAbsent(s, STDIO_ONLY, 43);
  }

  lemma NoPolicyCode(s: string)
    requires IsReport(s)
    ensures PolicyCode(s) == None
  {
    DisabledPhrasesAbsent(s);
    PolicyPhrasesAbsent(s);
    ToolPhrasesAbsent(s);
    BridgePhraseAbsent(s);
    StdioPhrasesAbsent(s);
    hide IsReport, Contains, DISABLED, NO_SERVER, NO_HTTP, SIDE_EFFECTS_OFF;
    hide NO_DYNAMIC, NO_SIDE_EFFECT, NO_STDIO_BRIDGE, NO_STDIO_DYNAMIC, STDIO_ONLY;
  }

  /** Two reports whose verbs differ are told apart. */
  lemma OtherVerbAbsent(verb: string, rest: string, other: string, more: string, j: nat)
    requires IsReport(SUBJECT + (verb + rest))
    requires j < |verb| && j < |other| && verb[j] != other[j]
    ensures !Contains(SUBJECT + (verb + rest), SUBJECT + (other + more))
  {
    var s, phrase := SUBJECT + (verb + rest), SUBJECT + (other + more);
    SubjectMark();
    assert phrase[18] == 'd' && phrase[19] == ' ' && phrase[20] == 'M';
    hide SUBJECT;
    if i :| 0 <= i <= |s| && OccursAt(s, phrase, i) {
      OccursChar(s, phrase, i, 20);
      OccursChar(s, phrase, i, 19);
      OccursChar(s, phrase, i, 18);
      MarksInReport(s, i + 20);
      assert i == 0;
      OccursChar(s, phrase, i, |SUBJECT| + j);
    }
  }

  lemma VerbsDiffer()
    ensures |WITHOUT_PROMPT| > 17 && |WITHOUT_RESOURCE| > 17 && |WITHOUT_BOTH| > 17 && |WITHOUT_TOOLS| > 17
    ensures WITHOUT_PROMPT[17] == 'o' && WITHOUT_RESOURCE[17] == 's' && WITHOUT_BOTH[17] == 'q'
    ensures WITHOUT_PROMPT[0] == WITHOUT_RESOURCE[0] == WITHOUT_BOTH[0] == 'd' && WITHOUT_TOOLS[0] == 'c'
  {
  }

  // ----- Printed lists -----

  predicate IsQuiet(text: string) {
    (forall c :: c in text ==> IsNameChar(c) || c == ',' || c == ' ') && BlanksFollowCommas(text)
  }

  predicate IsListText(text: string) {
    text != "" && IsQuiet(text) && IsTrimmed(text)
  }

  lemma PrintedList(names: seq<string>)
    requires ArePlainNames(names)
    ensures IsListText(JoinOrDash(names))
    ensures JoinOrDash(names)[0] == '-' <==> names == [] || names[0][0] == '-'
  {
    if names != [] {
      JoinedCharacters(names);
    }
  }

  /** A printed list is read back unless it is the single name "-". */
  lemma ListReadBack(names: seq<string>)
    requires ArePlainNames(names)
    ensures ListIn(JoinOrDash(names)) == names <==> names != ["-"]
  {
    if names != [] {
      JoinedCharacters(names);
      PlainAreListed(names);
      assert names == ["-"] <==> JoinNames(names) == "-" by {
        assert |names| == 1 ==> JoinNames(names) == names[0];
      }
      hide IsTrimmed, BlanksFollowCommas, ArePlainNames, AreListedNames;
      JoinedReadBack(names);
    } else {
      TrimmedIsFixed("-");
    }
  }

  lemma JoinedReadBack(names: seq<string>)
    requires AreListedNames(names) && names != [] && IsTrimmed(JoinNames(names)) && JoinNames(names) != ""
    ensures ListIn(JoinNames(names)) == if JoinNames(names) == "-" then [] else names
  {
    hide JoinNames, CleanNames, SplitCommas, AreListedNames, IsTrimmed;
    TrimmedIsFixed(JoinNames(names));
    JoinedNames(names, "");
    EmptyConcat(JoinNames(names));
  }

  lemma SpaceBehind(text: string)
    requires IsListText(text)
    ensures ListIn(text + " ") == ListIn(text)
  {
    PartsOfConcat(text, " ");
    TrimmedIsFixed(text);
    var padded := text + " ";
    assert padded[..|padded| - 1] == text;
    assert TrimStart(padded) == padded && TrimEnd(padded) == TrimEnd(text);
  }

  lemma QuietHasNoStop(text: string)
    requires IsQuiet(text)
    ensures forall c :: c in text ==> !IsStop(c)
  {
  }

  /** A list printed in front of ` (`, read from behind its prefix. */
  lemma ListBeforeParenthesis(text: string, rest: string)
    requires IsListText(text)
    ensures ListIn(UpToStop(text + (" (" + rest))) == ListIn(text)
  {
    QuietHasNoStop(text);
    var padded := text + " ";
    assert text + (" (" + rest) == padded + ("(" + rest);
    StopsThere(padded, "(" + rest);
    SpaceBehind(text);
  }

  lemma ListBeforeClosing(text: string, rest: string)
    requires IsListText(text)
    ensures ListIn(UpToStop(text + (")" + rest))) == ListIn(text)
  {
    QuietHasNoStop(text);
    StopsThere(text, ")" + rest);
  }

  // ----- The servers a report names -----

  function Servers(capability: string): string {
    CONFIGURED + (EXPOSING + capability)
  }

  /** A capability phrase: its only colon is the last character but one, "capability"
      stands in front of it, and the word before ends in the letter `sign`. */
  predicate IsCapability(capability: string, sign: char) {
    var n := |capability|;
    && n >= 14 && OnlyMark(capability, ':', n - 2) && capability[n - 1] == ' '
    && capability[n - 14] == sign && sign != ',' && sign != ':' && sign != '>'
    && capability[n - 13] == ' ' && (forall j | n - 13 < j <= n - 2 :: capability[j] != ' ')
    && 'M' !in capability && 'H' !in capability && '=' !in capability && capability[0] != ':'
  }

  lemma PromptCapability()
    ensures IsCapability(PROMPT_CAPABILITY, 't') && PROMPT_CAPABILITY[0] == 'p'
  {
  }

  lemma ResourceCapability()
    ensures IsCapability(RESOURCE_CAPABILITY, 'e') && RESOURCE_CAPABILITY[0] == 'r'
  {
  }

  lemma Capabilities()
    ensures IsCapability(PROMPT_CAPABILITY, 't') && IsCapability(RESOURCE_CAPABILITY, 'e')
    ensures PROMPT_CAPABILITY[0] == 'p' && RESOURCE_CAPABILITY[0] == 'r'
    ensures PROMPT_SERVERS == Servers(PROMPT_CAPABILITY) && RESOURCE_SERVERS == Servers(RESOURCE_CAPABILITY)
  {
    PromptCapability();
    ResourceCapability();
    hide PROMPT_CAPABILITY, RESOURCE_CAPABILITY, CONFIGURED, EXPOSING;
  }

  lemma CapabilityWord(asked: string, sign: char)
    requires IsCapability(asked, sign)
    ensures InWordFrom(asked + "-", |asked| - 2, |asked| - 13) && (asked + "-")[|asked| - 2] == ':'
  {
  }

  lemma ConfiguredWord()
    ensures |CONFIGURED| == 32 && OnlyMark(CONFIGURED, 'H', 27) && CONFIGURED[25] == 'd' && CONFIGURED[26] == ' '
    ensures 'M' !in CONFIGURED && '=' !in CONFIGURED && ':' !in CONFIGURED
  {
  }

  lemma ExposingWord()
    ensures |EXPOSING| == 17 && 'H' !in EXPOSING && 'M' !in EXPOSING && '=' !in EXPOSING && ':' !in EXPOSING
  {
  }

  lemma ServersWords()
    ensures |CONFIGURED| == 32 && OnlyMark(CONFIGURED, 'H', 27) && CONFIGURED[25] == 'd' && CONFIGURED[26] == ' '
    ensures 'M' !in CONFIGURED && '=' !in CONFIGURED && ':' !in CONFIGURED
    ensures |EXPOSING| == 17 && 'H' !in EXPOSING && 'M' !in EXPOSING && '=' !in EXPOSING && ':' !in EXPOSING
  {
    hide CONFIGURED, EXPOSING;
    ConfiguredWord();
    ExposingWord();
  }

  lemma ServersMark(capability: string, sign: char)
    requires IsCapability(capability, sign)
    ensures OnlyMark(Servers(capability), 'H', 27) && InWordFrom(Servers(capability), 27, 26)
    ensures Servers(capability)[25] == 'd' && Servers(capability)[49] == capability[0]
    ensures |Servers(capability)| == 49 + |capability| && IsLead(Servers(capability))
    ensures 'M' !in Servers(capability) && '=' !in Servers(capability)
  {
    ServersWords();
    hide CONFIGURED, EXPOSING;
  }

  lemma ServersColon(capability: string, sign: char)
    requires IsCapability(capability, sign)
    ensures |Servers(capability)| == 49 + |capability|
    ensures OnlyMark(Servers(capability), ':', 47 + |capability|) && Servers(capability)[35 + |capability|] == sign
  {
    ServersWords();
    hide CONFIGURED, EXPOSING;
    var s := Servers(capability);
    assert forall k :: 49 <= k < |s| ==> s[k] == capability[k - 49];
  }

  /** A list that does not begin with a dash does not complete `capability: -`;
      nor does any list of the other capability. */
  lemma ServersRefuteDash(capability: string, sign: char, value: string, asked: string, askedSign: char)
    requires IsCapability(capability, sign) && IsCapability(asked, askedSign)
    requires IsListText(value) && (sign != askedSign || value[0] != '-')
    ensures Refutes(Servers(capability) + value, asked + "-", |asked| - 2)
  {
    hide Servers, IsCapability, InWordFrom, IsLead, Disagrees, Refutes, IsNameChar, IsTrimmed, BlanksFollowCommas;
    ServersMark(capability, sign);
    ServersColon(capability, sign);
    CapabilityWord(asked, askedSign);
    CapabilityEnds(asked, askedSign);
    ColonDisagrees(Servers(capability), sign, value, asked, askedSign);
    ListRefutes(Servers(capability), value, asked + "-", |asked| - 2, |asked| - 13);
  }

  lemma CapabilityEnds(capability: string, sign: char)
    requires IsCapability(capability, sign)
    ensures |capability| >= 14 && capability[|capability| - 14] == sign
  {
  }

  lemma ColonDisagrees(lead: string, sign: char, value: string, asked: string, askedSign: char)
    requires |lead| >= 14 && lead[|lead| - 14] == sign && value != ""
    requires |asked| >= 14 && asked[|asked| - 14] == askedSign && (sign != askedSign || value[0] != '-')
    ensures Disagrees(lead + value, asked + "-", |lead| - |asked|)
  {
    var phrase, piece := asked + "-", lead + value;
    if sign != askedSign {
      assert piece[|lead| - |asked| + (|asked| - 14)] != phrase[|asked| - 14];
    } else {
      assert piece[|lead| - |asked| + |asked|] != phrase[|asked|];
    }
  }

  /** The rest of the message refutes the dash as well. */
  lemma FrameRefutesDash(asked: string, sign: char)
    requires IsCapability(asked, sign) && (sign == 't' || sign == 'e')
    ensures Refutes(NEEDED + ": ", asked + "-", |asked| - 2)
    ensures Refutes(CAPABILITIES + ": ", asked + "-", |asked| - 2)
    ensures Refutes(ALLOWLISTED, asked + "-", |asked| - 2)
  {
    var phrase, p := asked + "-", |asked| - 2;
    assert OnlyMark(NEEDED + ": ", ':', 41) && (NEEDED + ": ")[29] == 'l';
    assert OnlyMark(CAPABILITIES + ": ", ':', 26) && (CAPABILITIES + ": ")[14] == 'c';
    assert OnlyMark(ALLOWLISTED, ':', 21) && ALLOWLISTED[9] == 's';
    hide NEEDED, CAPABILITIES, ALLOWLISTED;
    RefutesMark(NEEDED + ": ", phrase, p, 41, -12);
    RefutesMark(CAPABILITIES + ": ", phrase, p, 26, -12);
    RefutesMark(ALLOWLISTED, phrase, p, 21, -12);
  }

  // ----- One capability is missing -----

  function Missing(without: string): string {
    SUBJECT + (without + NEEDED)
  }

  /** Everything in front of the blocked servers. */
  function Front(without: string, tools: string, allowlisted: string): string {
    SUBJECT + (without + (((NEEDED + ": ") + tools) + ((ALLOWLISTED + allowlisted) + "; ")))
  }

  predicate IsVerb(without: string) {
    'M' !in without && 'H' !in without && ':' !in without && |without| > 17
  }

  lemma PromptVerb()
    ensures IsVerb(WITHOUT_PROMPT)
  {
  }

  lemma ResourceVerb()
    ensures IsVerb(WITHOUT_RESOURCE)
  {
  }

  lemma FrontSplits(without: string, tools: string, allowlisted: string, more: string)
    ensures Front(without, tools, allowlisted) + more
         == Missing(without) + (": " + (tools + (ALLOWLISTED + (allowlisted + ("; " + more)))))
    ensures Front(without, tools, allowlisted) + more
         == SUBJECT + (without + (((NEEDED + ": ") + tools) + ((ALLOWLISTED + allowlisted) + ("; " + more))))
  {
    hide SUBJECT, NEEDED, ALLOWLISTED;
    var listed, allowed := (NEEDED + ": ") + tools, ALLOWLISTED + allowlisted;
    var tail := "; " + more;
    Associative(allowed, "; ", more);
    Associative(listed, allowed + "; ", more);
    Associative(without, listed + (allowed + "; "), more);
    Associative(SUBJECT, without + (listed + (allowed + "; ")), more);
    Associative(ALLOWLISTED, allowlisted, tail);
    Associative(NEEDED + ": ", tools, allowed + tail);
    Associative(NEEDED, ": ", tools + (allowed + tail));
    Associative(without, NEEDED, ": " + (tools + (allowed + tail)));
    Associative(SUBJECT, without + NEEDED, ": " + (tools + (allowed + tail)));
  }

  lemma LeadsEnd()
    ensures IsLead(NEEDED + ": ") && IsLead(ALLOWLISTED) && IsLead(CAPABILITIES + ": ")
  {
  }

  lemma FrontRefutes(without: string, tools: string, allowlisted: string, phrase: string, p: nat, q: nat)
    requires InWordFrom(phrase, p, q) && IsQuiet(tools) && IsQuiet(allowlisted)
    requires Refutes(SUBJECT, phrase, p) && Refutes(NEEDED + ": ", phrase, p) && Refutes(ALLOWLISTED, phrase, p)
    requires phrase[p] !in without && phrase[p] != ';'
    ensures Refutes(Front(without, tools, allowlisted), phrase, p)
  {
    LeadsEnd();
    hide SUBJECT, NEEDED, ALLOWLISTED, Refutes, IsLead;
    var listed, allowed := (NEEDED + ": ") + tools, ALLOWLISTED + allowlisted;
    KeyRefutes(NEEDED + ": ", tools, phrase, p, q);
    KeyRefutes(ALLOWLISTED, allowlisted, phrase, p, q);
    RefutesFree("; ", phrase, p);
    RefutesConcat(allowed, "; ", phrase, p);
    RefutesConcat(listed, allowed + "; ", phrase, p);
    RefutesFree(without, phrase, p);
    RefutesConcat(without, listed + (allowed + "; "), phrase, p);
    RefutesConcat(SUBJECT, without + (listed + (allowed + "; ")), phrase, p);
  }

  lemma ServersTexts(capability: string, sign: char)
    requires IsCapability(capability, sign)
    ensures FirstMark(Servers(capability), 27)
    ensures Refutes(SUBJECT, Servers(capability), 27)
    ensures Refutes(NEEDED + ": ", Servers(capability), 27)
    ensures Refutes(CAPABILITIES + ": ", Servers(capability), 27)
    ensures Refutes(ALLOWLISTED, Servers(capability), 27)
  {
    var phrase := Servers(capability);
    ServersMark(capability, sign);
    hide Servers;
    SubjectMark();
    RefutesMark(SUBJECT, phrase, 27, 24, -2);
    assert 'H' !in NEEDED + ": " && 'H' !in CAPABILITIES + ": " && 'H' !in ALLOWLISTED;
  }

  lemma SingleIsReport(without: string, capability: string, sign: char, tools: string, allowlisted: string,
                       blocked: string)
    requires IsVerb(without) && IsCapability(capability, sign)
    requires IsListText(tools) && IsListText(allowlisted) && IsListText(blocked)
    ensures IsReport(SingleMessage(Missing(without), Servers(capability), tools, allowlisted, blocked))
  {
    ServersMark(capability, sign);
    NeededMarks();
    LeadsEnd();
    hide SUBJECT, NEEDED, ALLOWLISTED, Servers, IsLead, LaterMarks;
    var servers := Servers(capability) + blocked;
    var listed, allowed := (NEEDED + ": ") + tools, ALLOWLISTED + allowlisted;
    var more := servers + ")";
    FrontSplits(without, tools, allowlisted, more);
    Associative(Servers(capability), blocked, ")");
    NoMarks(Servers(capability));
    ListMarks(Servers(capability), blocked);
    ListMarks(ALLOWLISTED, allowlisted);
    ListMarks(NEEDED + ": ", tools);
    NoMarks(")");
    NoMarks("; ");
    NoMarks(without);
    LaterMarksConcat(servers, ")");
    LaterMarksConcat("; ", more);
    LaterMarksConcat(allowed, "; " + more);
    LaterMarksConcat(listed, allowed + ("; " + more));
    LaterMarksConcat(without, listed + (allowed + ("; " + more)));
  }

  lemma NoMarks(s: string)
    requires 'M' !in s
    ensures LaterMarks(s)
  {
  }

  lemma NeededMarks()
    ensures LaterMarks(NEEDED) && LaterMarks(NEEDED + ": ") && LaterMarks(CAPABILITIES)
        && LaterMarks(CAPABILITIES + ": ")
    ensures LaterMarks(ALLOWLISTED)
  {
    assert OnlyMark(NEEDED, 'M', 32) && NEEDED[30] == 'y' && NEEDED[36] == 't' && |NEEDED| == 41;
    assert OnlyMark(CAPABILITIES, 'M', 10) && CAPABILITIES[8] == 'y' && CAPABILITIES[14] == 'c' && |CAPABILITIES| == 26;
    assert 'M' !in ALLOWLISTED;
    hide NEEDED, CAPABILITIES, ALLOWLISTED;
    NoMarks(": ");
    LaterMarksConcat(NEEDED, ": ");
    LaterMarksConcat(CAPABILITIES, ": ");
  }

  /** `capability: -` is printed just when the list of blocked servers begins with a dash. */
  lemma SingleDash(without: string, capability: string, sign: char, tools: string, allowlisted: string, blocked: string)
    requires IsVerb(without) && IsCapability(capability, sign) && (sign == 't' || sign == 'e')
    requires IsListText(tools) && IsListText(allowlisted) && IsListText(blocked)
    ensures Contains(SingleMessage(Missing(without), Servers(capability), tools, allowlisted, blocked),
                     Servers(capability) + "-")
       <==> blocked[0] == '-'
  {
    var s := SingleMessage(Missing(without), Servers(capability), tools, allowlisted, blocked);
    var front := Front(without, tools, allowlisted);
    FrontSplits(without, tools, allowlisted, Servers(capability) + (blocked + ")"));
    if blocked[0] == '-' {
      DashShows(front, capability, blocked, ")");
    } else {
      var phrase, p := capability + "-", |capability| - 2;
      SubjectMark();
      RefutesFree(SUBJECT, phrase, p);
      FrameRefutesDash(capability, sign);
      CapabilityWord(capability, sign);
      FrontRefutes(without, tools, allowlisted, phrase, p, |capability| - 13);
      ServersRefuteDash(capability, sign, blocked, capability, sign);
      RefutesFree(")", phrase, p);
      hide SUBJECT, NEEDED, ALLOWLISTED, Refutes, Servers, Front, SingleMessage;
      RefutesConcat(Servers(capability) + blocked, ")", phrase, p);
      Associative(Servers(capability), blocked, ")");
      RefutesConcat(front, Servers(capability) + (blocked + ")"), phrase, p);
      RefutedAbsent(s, phrase, p);
      LongPhraseAbsent(s, capability);
    }
  }

  lemma DashShows(front: string, capability: string, value: string, rest: string)
    requires value != "" && value[0] == '-'
    ensures Contains(front + (Servers(capability) + (value + rest)), Servers(capability) + "-")
    ensures Contains(front + (Servers(capability) + (value + rest)), capability + "-")
  {
    hide CONFIGURED, EXPOSING, Contains;
    HeadAndTail(value);
    var phrase := Servers(capability) + "-";
    assert Servers(capability) + (value + rest) == phrase + (value[1..] + rest);
    OccursBetween(front, phrase, value[1..] + rest);
    assert phrase == (CONFIGURED + EXPOSING) + ((capability + "-") + "");
    ContainsPart(front + (phrase + (value[1..] + rest)), CONFIGURED + EXPOSING, capability + "-", "");
  }

  lemma LongPhraseAbsent(s: string, capability: string)
    requires !Contains(s, capability + "-")
    ensures !Contains(s, Servers(capability) + "-")
  {
    hide CONFIGURED, EXPOSING, Contains;
    assert Servers(capability) + "-" == (CONFIGURED + EXPOSING) + ((capability + "-") + "");
    if Contains(s, Servers(capability) + "-") {
      ContainsPart(s, CONFIGURED + EXPOSING, capability + "-", "");
    }
  }
}
