/** A printed capability refusal reads back as the verdict it was printed from,
    exactly when no blocked server's name hides behind the dash of an empty list. */
module RejectionTheorems {
  import opened Wrappers
  import opened Sequences
  import opened Names
  import opened TextSearch
  import opened RejectionText
  import opened RejectionPhrases

  // ----- One capability is missing -----

  lemma SingleLists(without: string, capability: string, sign: char, tools: string, allowlisted: string,
                    blocked: string)
    requires IsVerb(without) && IsCapability(capability, sign)
    requires IsListText(tools) && IsListText(allowlisted) && IsListText(blocked)
    ensures NamedList(SingleMessage(Missing(without), Servers(capability), tools, allowlisted, blocked),
                      Missing(without) + ": ")
         == ListIn(tools)
    ensures NamedList(SingleMessage(Missing(without), Servers(capability), tools, allowlisted, blocked),
                      Servers(capability))
         == ListIn(blocked)
  {
    var s := SingleMessage(Missing(without), Servers(capability), tools, allowlisted, blocked);
    var phrase, front := Servers(capability), Front(without, tools, allowlisted);
    FrontSplits(without, tools, allowlisted, phrase + (blocked + ")"));
    ServersTexts(capability, sign);
    ServersMark(capability, sign);
    FrontRefutes(without, tools, allowlisted, phrase, 27, 26);
    AfterFirst(front, phrase, blocked + ")", 27);
    ListBeforeClosing(blocked, "");
    EmptyConcat(")");
    SingleToolsList(Missing(without), tools, allowlisted + ("; " + (phrase + (blocked + ")"))));
    hide ListIn, UpToStop, After, IsListText, Missing, Servers, ALLOWLISTED, Front, Refutes;
  }

  /** The tools follow the phrase the message begins with. */
  lemma SingleToolsList(missing: string, tools: string, rest: string)
    requires IsListText(tools)
    ensures NamedList(missing + (": " + (tools + (ALLOWLISTED + rest))), missing + ": ") == ListIn(tools)
  {
    var named := tools + (ALLOWLISTED + rest);
    Associative(missing, ": ", named);
    PartsOfConcat(missing + ": ", named);
    assert OccursAt(missing + (": " + named), missing + ": ", 0);
    var s := missing + (": " + named);
    assert After(s, missing + ": ", 0) == Some(named);
    AllowlistedOpens(rest);
    ListBeforeParenthesis(tools, "allowlisted servers: " + rest);
    hide ALLOWLISTED;
  }

  lemma AllowlistedOpens(rest: string)
    ensures ALLOWLISTED + rest == " (" + ("allowlisted servers: " + rest)
  {
    assert ALLOWLISTED == " (" + "allowlisted servers: ";
  }

  lemma MissingSplits(without: string, tools: string, allowlisted: string, more: string)
    ensures var rest := ": " + (tools + (ALLOWLISTED + (allowlisted + ("; " + more))));
            Missing(without) + rest == SUBJECT + (without + (NEEDED + rest))
  {
    hide SUBJECT, NEEDED, ALLOWLISTED;
    var rest := ": " + (tools + (ALLOWLISTED + (allowlisted + ("; " + more))));
    Associative(without, NEEDED, rest);
    Associative(SUBJECT, without + NEEDED, rest);
  }

  lemma CodeOfPrompt(s: string)
    requires PolicyCode(s) == None && Contains(s, PROMPT_MISSING) && !Contains(s, BOTH_MISSING)
    requires !Contains(s, RESOURCE_MISSING)
    ensures ReadCode(s) == Some(if Contains(s, PROMPT_SERVERS + "-") then PromptUnavailable
                                else PromptBlockedByAllowlist)
  {
    hide PolicyCode, Contains, PROMPT_MISSING, RESOURCE_MISSING, BOTH_MISSING, PROMPT_SERVERS, RESOURCE_SERVERS;
  }

  lemma PromptCode(tools: string, allowlisted: string, blocked: string)
    requires IsListText(tools) && IsListText(allowlisted) && IsListText(blocked)
    ensures ReadCode(SingleMessage(PROMPT_MISSING, PROMPT_SERVERS, tools, allowlisted, blocked))
         == Some(if blocked[0] == '-' then PromptUnavailable else PromptBlockedByAllowlist)
  {
    var s := SingleMessage(PROMPT_MISSING, PROMPT_SERVERS, tools, allowlisted, blocked);
    PromptVerb();
    VerbsDiffer();
    Capabilities();
    hide SUBJECT, WITHOUT_PROMPT, WITHOUT_RESOURCE, WITHOUT_BOTH, NEEDED, CAPABILITIES, PROMPT_CAPABILITY,
         RESOURCE_CAPABILITY;
    SingleIsReport(WITHOUT_PROMPT, PROMPT_CAPABILITY, 't', tools, allowlisted, blocked);
    NoPolicyCode(s);
    SingleDash(WITHOUT_PROMPT, PROMPT_CAPABILITY, 't', tools, allowlisted, blocked);
    var more := PROMPT_SERVERS + (blocked + ")");
    MissingSplits(WITHOUT_PROMPT, tools, allowlisted, more);
    var rest := ": " + (tools + (ALLOWLISTED + (allowlisted + ("; " + more))));
    OtherVerbAbsent(WITHOUT_PROMPT, NEEDED + rest, WITHOUT_BOTH, CAPABILITIES, 17);
    OtherVerbAbsent(WITHOUT_PROMPT, NEEDED + rest, WITHOUT_RESOURCE, NEEDED, 17);
    assert s == PROMPT_MISSING + rest;
    EmptyConcat(PROMPT_MISSING + rest);
    OccursBetween("", PROMPT_MISSING, rest);
    assert Contains(s, PROMPT_MISSING) && !Contains(s, BOTH_MISSING);
    assert Contains(s, PROMPT_SERVERS + "-") <==> blocked[0] == '-';
    hide IsReport, Contains, SingleMessage, PolicyCode, PROMPT_MISSING, RESOURCE_MISSING, BOTH_MISSING,
         PROMPT_SERVERS, RESOURCE_SERVERS;
    CodeOfPrompt(s);
  }


  lemma CodeOfResource(s: string)
    requires PolicyCode(s) == None && Contains(s, RESOURCE_MISSING) && !Contains(s, BOTH_MISSING)
    requires !Contains(s, PROMPT_MISSING)
    ensures ReadCode(s) == Some(if Contains(s, RESOURCE_SERVERS + "-") then ResourceUnavailable
                                else ResourceBlockedByAllowlist)
  {
    hide PolicyCode, Contains, PROMPT_MISSING, RESOURCE_MISSING, BOTH_MISSING, PROMPT_SERVERS, RESOURCE_SERVERS;
  }

  lemma ResourceCode(tools: string, allowlisted: string, blocked: string)
    requires IsListText(tools) && IsListText(allowlisted) && IsListText(blocked)
    ensures ReadCode(SingleMessage(RESOURCE_MISSING, RESOURCE_SERVERS, tools, allowlisted, blocked))
         == Some(if blocked[0] == '-' then ResourceUnavailable else ResourceBlockedByAllowlist)
  {
    var s := SingleMessage(RESOURCE_MISSING, RESOURCE_SERVERS, tools, allowlisted, blocked);
    ResourceVerb();
    VerbsDiffer();
    Capabilities();
    hide SUBJECT, WITHOUT_PROMPT, WITHOUT_RESOURCE, WITHOUT_BOTH, NEEDED, CAPABILITIES, PROMPT_CAPABILITY,
         RESOURCE_CAPABILITY;
    SingleIsReport(WITHOUT_RESOURCE, RESOURCE_CAPABILITY, 'e', tools, allowlisted, blocked);
    NoPolicyCode(s);
    SingleDash(WITHOUT_RESOURCE, RESOURCE_CAPABILITY, 'e', tools, allowlisted, blocked);
    var more := RESOURCE_SERVERS + (blocked + ")");
    MissingSplits(WITHOUT_RESOURCE, tools, allowlisted, more);
    var rest := ": " + (tools + (ALLOWLISTED + (allowlisted + ("; " + more))));
    OtherVerbAbsent(WITHOUT_RESOURCE, NEEDED + rest, WITHOUT_BOTH, CAPABILITIES, 17);
    OtherVerbAbsent(WITHOUT_RESOURCE, NEEDED + rest, WITHOUT_PROMPT, NEEDED, 17);
    assert s == RESOURCE_MISSING + rest;
    EmptyConcat(RESOURCE_MISSING + rest);
    OccursBetween("", RESOURCE_MISSING, rest);
    assert Contains(s, RESOURCE_MISSING) && !Contains(s, BOTH_MISSING);
    assert Contains(s, RESOURCE_SERVERS + "-") <==> blocked[0] == '-';
    hide IsReport, Contains, SingleMessage, PolicyCode, PROMPT_MISSING, RESOURCE_MISSING, BOTH_MISSING,
         PROMPT_SERVERS, RESOURCE_SERVERS;
    CodeOfResource(s);
  }

  // ----- Both capabilities are missing -----

  function BothHead(): string {
    SUBJECT + (WITHOUT_BOTH + (CAPABILITIES + ": "))
  }

  function Group(front: string, key: string, value: string, end: string): string {
    front + (key + (value + end))
  }

  lemma GroupThen(front: string, key: string, value: string, end: string, more: string)
    ensures Group(front, key, value, end) + more == front + (key + (value + (end + more)))
  {
    Associative(value, end, more);
    Associative(key, value + end, more);
    Associative(front, key + (value + end), more);
  }

  lemma GroupRefutes(front: string, key: string, value: string, end: string, phrase: string, p: nat)
    requires p < |phrase| && Refutes(front, phrase, p) && Refutes(key + value, phrase, p) && phrase[p] !in end
    ensures Refutes(Group(front, key, value, end), phrase, p)
  {
    RefutesFree(end, phrase, p);
    hide Refutes;
    RefutesConcat(key + value, end, phrase, p);
    RefutesConcat(front, (key + value) + end, phrase, p);
    Associative(key, value, end);
  }

  lemma HeadRefutes(phrase: string, p: nat)
    requires p < |phrase| && Refutes(SUBJECT, phrase, p) && Refutes(CAPABILITIES + ": ", phrase, p)
        && phrase[p] !in WITHOUT_BOTH
    ensures Refutes(BothHead(), phrase, p)
  {
    hide SUBJECT, WITHOUT_BOTH, CAPABILITIES, Refutes;
    RefutesFree(WITHOUT_BOTH, phrase, p);
    RefutesConcat(WITHOUT_BOTH, CAPABILITIES + ": ", phrase, p);
    RefutesConcat(SUBJECT, WITHOUT_BOTH + (CAPABILITIES + ": "), phrase, p);
  }

  datatype Lists = Lists(prompts: string, promptServers: string, resources: string, resourceServers: string,
                         allowlisted: string)

  predicate AreListTexts(t: Lists) {
    IsListText(t.prompts) && IsListText(t.promptServers) && IsListText(t.resources) && IsListText(t.resourceServers)
    && IsListText(t.allowlisted)
  }

  function BothText(t: Lists): string {
    BothMessage(t.prompts, t.promptServers, t.resources, t.resourceServers, t.allowlisted)
  }

  function BothEnd(t: Lists): string {
    ")" + (ALLOWLISTED + (t.allowlisted + ")"))
  }

  /** What is printed in front of each of the four lists. */
  function Before(t: Lists, n: nat): string
    requires n < 4
  {
    if n == 0 then BothHead()
    else if n == 1 then Group(Before(t, 0), PROMPTS, t.prompts, " (")
    else if n == 2 then Group(Before(t, 1), PROMPT_SERVERS, t.promptServers, "); ")
    else Group(Before(t, 2), RESOURCES, t.resources, " (")
  }

  lemma BothSplits(t: Lists)
    ensures BothText(t) == Before(t, 3) + (RESOURCE_SERVERS + (t.resourceServers + BothEnd(t)))
    ensures BothText(t)
         == Before(t, 2) + (RESOURCES + (t.resources + (" (" + (RESOURCE_SERVERS + (t.resourceServers + BothEnd(t))))))
    ensures exists more :: BothText(t) == Before(t, 1) + (PROMPT_SERVERS + (t.promptServers + (")" + more)))
    ensures exists more :: BothText(t) == Before(t, 0) + (PROMPTS + (t.prompts + (" (" + more)))
    ensures exists more ::
              BothText(t) == BOTH_MISSING + more
              && BothText(t) == SUBJECT + (WITHOUT_BOTH + (CAPABILITIES + more))
  {
    hide SUBJECT, WITHOUT_BOTH, CAPABILITIES, PROMPTS, RESOURCES, PROMPT_SERVERS, RESOURCE_SERVERS, ALLOWLISTED;
    var m3 := RESOURCE_SERVERS + (t.resourceServers + BothEnd(t));
    var m2 := RESOURCES + (t.resources + (" (" + m3));
    var m1 := PROMPT_SERVERS + (t.promptServers + ("); " + m2));
    var m0 := PROMPTS + (t.prompts + (" (" + m1));
    GroupThen(Before(t, 2), RESOURCES, t.resources, " (", m3);
    GroupThen(Before(t, 1), PROMPT_SERVERS, t.promptServers, "); ", m2);
    GroupThen(Before(t, 0), PROMPTS, t.prompts, " (", m1);
    GroupThen(SUBJECT, WITHOUT_BOTH, CAPABILITIES, ": ", m0);
    Associative(WITHOUT_BOTH, CAPABILITIES, ": " + m0);
    Associative(SUBJECT, WITHOUT_BOTH + CAPABILITIES, ": " + m0);
    assert "); " + m2 == ")" + ("; " + m2);
    hide Before, Group;
    assert BothText(t) == Before(t, 0) + m0;
  }

  lemma BeforeRefutes(t: Lists, n: nat, phrase: string, p: nat)
    requires n < 4 && p < |phrase| && phrase[p] !in " (" && phrase[p] !in "); "
    requires Refutes(BothHead(), phrase, p)
    requires n >= 1 ==> Refutes(PROMPTS + t.prompts, phrase, p)
    requires n >= 2 ==> Refutes(PROMPT_SERVERS + t.promptServers, phrase, p)
    requires n >= 3 ==> Refutes(RESOURCES + t.resources, phrase, p)
    ensures Refutes(Before(t, n), phrase, p)
  {
    hide Refutes, PROMPTS, PROMPT_SERVERS, RESOURCES, BothHead;
    if n >= 1 {
      GroupRefutes(BothHead(), PROMPTS, t.prompts, " (", phrase, p);
    }
    if n >= 2 {
      GroupRefutes(Before(t, 1), PROMPT_SERVERS, t.promptServers, "); ", phrase, p);
    }
    if n >= 3 {
      GroupRefutes(Before(t, 2), RESOURCES, t.resources, " (", phrase, p);
    }
  }

  lemma ArrowMarks()
    ensures |PROMPTS| == 11 && OnlyMark(PROMPTS, '=', 8) && PROMPTS[5] == 't'
    ensures |RESOURCES| == 13 && OnlyMark(RESOURCES, '=', 10) && RESOURCES[7] == 'e'
    ensures 'H' !in PROMPTS && 'H' !in RESOURCES && 'M' !in PROMPTS && 'M' !in RESOURCES
    ensures ':' !in PROMPTS && ':' !in RESOURCES && IsLead(PROMPTS) && IsLead(RESOURCES)
    ensures InWordFrom(RESOURCES, 10, 9)
  {
  }

  lemma VerbMarks()
    ensures 'M' !in WITHOUT_BOTH && 'H' !in WITHOUT_BOTH && ':' !in WITHOUT_BOTH && '=' !in WITHOUT_BOTH
  {
  }

  lemma NounMarks()
    ensures '=' !in CAPABILITIES && 'M' !in WITHOUT_TOOLS
  {
  }

  lemma HeadMarks()
    ensures 'M' !in WITHOUT_BOTH && 'H' !in WITHOUT_BOTH && ':' !in WITHOUT_BOTH && '=' !in WITHOUT_BOTH
    ensures '=' !in SUBJECT && '=' !in CAPABILITIES && 'M' !in WITHOUT_TOOLS
  {
    hide SUBJECT, WITHOUT_BOTH, WITHOUT_TOOLS, CAPABILITIES;
    SubjectMark();
    VerbMarks();
    NounMarks();
  }

  lemma PromptListRead(t: Lists)
    requires AreListTexts(t)
    ensures NamedList(BothText(t), PROMPTS) == ListIn(t.prompts)
  {
    hide BothHead, PROMPTS, RESOURCES, BothMessage, ListIn, After, UpToStop, SUBJECT, CAPABILITIES, WITHOUT_BOTH,
         WITHOUT_TOOLS;
    HeadMarks();
    ArrowMarks();
    RefutesFree(SUBJECT, PROMPTS, 8);
    RefutesFree(CAPABILITIES + ": ", PROMPTS, 8);
    HeadRefutes(PROMPTS, 8);
    BothSplits(t);
    var more :| BothText(t) == Before(t, 0) + (PROMPTS + (t.prompts + (" (" + more)));
    AfterFirst(BothHead(), PROMPTS, t.prompts + (" (" + more), 8);
    ListBeforeParenthesis(t.prompts, more);
  }

  lemma ResourceListRead(t: Lists)
    requires AreListTexts(t)
    ensures NamedList(BothText(t), RESOURCES) == ListIn(t.resources)
  {
    hide SUBJECT, CAPABILITIES, WITHOUT_BOTH, WITHOUT_TOOLS, PROMPTS, RESOURCES, PROMPT_CAPABILITY, RESOURCE_CAPABILITY,
         PROMPT_SERVERS, RESOURCE_SERVERS, Servers, NEEDED, ALLOWLISTED, CONFIGURED, EXPOSING;
    HeadMarks();
    ArrowMarks();
    Capabilities();
    ServersMark(PROMPT_CAPABILITY, 't');
    RefutesFree(SUBJECT, RESOURCES, 10);
    RefutesFree(CAPABILITIES + ": ", RESOURCES, 10);
    HeadRefutes(RESOURCES, 10);
    RefutesMark(PROMPTS, RESOURCES, 10, 8, -3);
    KeyRefutes(PROMPTS, t.prompts, RESOURCES, 10, 9);
    RefutesFree(PROMPT_SERVERS, RESOURCES, 10);
    KeyRefutes(PROMPT_SERVERS, t.promptServers, RESOURCES, 10, 9);
    BeforeRefutes(t, 2, RESOURCES, 10);
    BothSplits(t);
    hide BothHead, RESOURCES, BothMessage, ListIn, After, UpToStop, Before;
    var more := RESOURCE_SERVERS + (t.resourceServers + BothEnd(t));
    AfterFirst(Before(t, 2), RESOURCES, t.resources + (" (" + more), 10);
    ListBeforeParenthesis(t.resources, more);
  }

  lemma PromptServersRead(t: Lists)
    requires AreListTexts(t)
    ensures NamedList(BothText(t), PROMPT_SERVERS) == ListIn(t.promptServers)
  {
    hide SUBJECT, CAPABILITIES, WITHOUT_BOTH, WITHOUT_TOOLS, PROMPTS, RESOURCES, PROMPT_CAPABILITY, RESOURCE_CAPABILITY,
         PROMPT_SERVERS, RESOURCE_SERVERS, Servers, NEEDED, ALLOWLISTED, CONFIGURED, EXPOSING;
    HeadMarks();
    ArrowMarks();
    Capabilities();
    ServersMark(PROMPT_CAPABILITY, 't');
    ServersTexts(PROMPT_CAPABILITY, 't');
    HeadRefutes(PROMPT_SERVERS, 27);
    RefutesFree(PROMPTS, PROMPT_SERVERS, 27);
    KeyRefutes(PROMPTS, t.prompts, PROMPT_SERVERS, 27, 26);
    BeforeRefutes(t, 1, PROMPT_SERVERS, 27);
    BothSplits(t);
    hide BothHead, BothMessage, ListIn, After, UpToStop, Before;
    var more :| BothText(t) == Before(t, 1) + (PROMPT_SERVERS + (t.promptServers + (")" + more)));
    AfterFirst(Before(t, 1), PROMPT_SERVERS, t.promptServers + (")" + more), 27);
    ListBeforeClosing(t.promptServers, more);
  }

  lemma ResourceServersRead(t: Lists)
    requires AreListTexts(t)
    ensures NamedList(BothText(t), RESOURCE_SERVERS) == ListIn(t.resourceServers)
  {
    hide SUBJECT, CAPABILITIES, WITHOUT_BOTH, WITHOUT_TOOLS, PROMPTS, RESOURCES, PROMPT_CAPABILITY, RESOURCE_CAPABILITY,
         PROMPT_SERVERS, RESOURCE_SERVERS, Servers, NEEDED, ALLOWLISTED, CONFIGURED, EXPOSING;
    HeadMarks();
    ArrowMarks();
    Capabilities();
    ServersMark(PROMPT_CAPABILITY, 't');
    ServersMark(RESOURCE_CAPABILITY, 'e');
    ServersTexts(RESOURCE_CAPABILITY, 'e');
    HeadRefutes(RESOURCE_SERVERS, 27);
    RefutesFree(PROMPTS, RESOURCE_SERVERS, 27);
    KeyRefutes(PROMPTS, t.prompts, RESOURCE_SERVERS, 27, 26);
    RefutesFree(RESOURCES, RESOURCE_SERVERS, 27);
    KeyRefutes(RESOURCES, t.resources, RESOURCE_SERVERS, 27, 26);
    RefutesMark(PROMPT_SERVERS, RESOURCE_SERVERS, 27, 27, 22);
    KeyRefutes(PROMPT_SERVERS, t.promptServers, RESOURCE_SERVERS, 27, 26);
    BeforeRefutes(t, 3, RESOURCE_SERVERS, 27);
    BothSplits(t);
    hide BothHead, BothMessage, ListIn, After, UpToStop, Before;
    var more := ALLOWLISTED + (t.allowlisted + ")");
    AfterFirst(Before(t, 3), RESOURCE_SERVERS, t.resourceServers + (")" + more), 27);
    ListBeforeClosing(t.resourceServers, more);
  }

  lemma BothRefutesDash(t: Lists, asked: string, sign: char)
    requires AreListTexts(t) && IsCapability(asked, sign)
    requires (sign == 't' && t.promptServers[0] != '-') || (sign == 'e' && t.resourceServers[0] != '-')
    ensures !Contains(BothText(t), asked + "-")
  {
    hide SUBJECT, PROMPTS, RESOURCES, PROMPT_CAPABILITY, RESOURCE_CAPABILITY, PROMPT_SERVERS, RESOURCE_SERVERS, Servers;
    hide ALLOWLISTED, CAPABILITIES, WITHOUT_BOTH, WITHOUT_TOOLS, Refutes, IsLead, NEEDED;
    var phrase, p := asked + "-", |asked| - 2;
    HeadMarks();
    ArrowMarks();
    SubjectMark();
    FrameRefutesDash(asked, sign);
    Capabilities();
    ServersRefuteDash(PROMPT_CAPABILITY, 't', t.promptServers, asked, sign);
    ServersRefuteDash(RESOURCE_CAPABILITY, 'e', t.resourceServers, asked, sign);
    RefutesFree(SUBJECT, phrase, p);
    LeadsEnd();
    CapabilityWord(asked, sign);
    RefutesFree(PROMPTS, phrase, p);
    RefutesFree(RESOURCES, phrase, p);
    RefutesFree(")", phrase, p);
    var q := |asked| - 13;
    KeyRefutes(PROMPTS, t.prompts, phrase, p, q);
    KeyRefutes(RESOURCES, t.resources, phrase, p, q);
    KeyRefutes(ALLOWLISTED, t.allowlisted, phrase, p, q);
    HeadRefutes(phrase, p);
    BeforeRefutes(t, 3, phrase, p);
    BothSplits(t);
    RefutesConcat(ALLOWLISTED + t.allowlisted, ")", phrase, p);
    Associative(ALLOWLISTED, t.allowlisted, ")");
    RefutesConcat(")", ALLOWLISTED + (t.allowlisted + ")"), phrase, p);
    RefutesConcat(RESOURCE_SERVERS + t.resourceServers, BothEnd(t), phrase, p);
    Associative(RESOURCE_SERVERS, t.resourceServers, BothEnd(t));
    hide BothMessage, Before, BothEnd, Contains;
    RefutesConcat(Before(t, 3), RESOURCE_SERVERS + (t.resourceServers + BothEnd(t)), phrase, p);
    RefutedAbsent(BothText(t), phrase, p);
  }

  lemma BothDash(t: Lists)
    requires AreListTexts(t)
    ensures Contains(BothText(t), PROMPT_CAPABILITY + "-") <==> t.promptServers[0] == '-'
    ensures Contains(BothText(t), RESOURCE_CAPABILITY + "-") <==> t.resourceServers[0] == '-'
  {
    Capabilities();
    BothSplits(t);
    hide PROMPT_CAPABILITY, RESOURCE_CAPABILITY, PROMPT_SERVERS, RESOURCE_SERVERS, Servers, BothMessage, Before,
         BothEnd;
    hide Contains, PROMPTS, RESOURCES;
    if t.promptServers[0] == '-' {
      var more :| BothText(t) == Before(t, 1) + (PROMPT_SERVERS + (t.promptServers + (")" + more)));
      DashShows(Before(t, 1), PROMPT_CAPABILITY, t.promptServers, ")" + more);
    } else {
      BothRefutesDash(t, PROMPT_CAPABILITY, 't');
    }
    if t.resourceServers[0] == '-' {
      DashShows(Before(t, 3), RESOURCE_CAPABILITY, t.resourceServers, BothEnd(t));
    } else {
      BothRefutesDash(t, RESOURCE_CAPABILITY, 'e');
    }
  }

  lemma GroupMarks(lead: string, list: string, end: string, rest: string)
    requires LaterMarks(lead) && IsLead(lead) && IsQuiet(list) && 'M' !in end && LaterMarks(rest)
    ensures LaterMarks(lead + (list + (end + rest)))
  {
    hide LaterMarks, IsLead;
    NoMarks(end);
    ListMarks(lead, list);
    LaterMarksConcat(end, rest);
    LaterMarksConcat(lead + list, end + rest);
    Associative(lead, list, end + rest);
  }

  lemma BothIsReport(t: Lists)
    requires AreListTexts(t)
    ensures IsReport(BothText(t))
  {
    HeadMarks();
    ArrowMarks();
    NeededMarks();
    LeadsEnd();
    Capabilities();
    ServersMark(PROMPT_CAPABILITY, 't');
    ServersMark(RESOURCE_CAPABILITY, 'e');
    hide SUBJECT, WITHOUT_BOTH, CAPABILITIES, PROMPTS, RESOURCES, PROMPT_SERVERS, RESOURCE_SERVERS, ALLOWLISTED;
    hide PROMPT_CAPABILITY, RESOURCE_CAPABILITY, Servers, LaterMarks, IsLead, IsQuiet, InWordFrom;
    NoMarks(PROMPTS);
    NoMarks(RESOURCES);
    NoMarks(PROMPT_SERVERS);
    NoMarks(RESOURCE_SERVERS);
    NoMarks(WITHOUT_BOTH);
    NoMarks("");
    var m4 := ALLOWLISTED + (t.allowlisted + ")");
    var m3 := RESOURCE_SERVERS + (t.resourceServers + (")" + m4));
    var m2 := RESOURCES + (t.resources + (" (" + m3));
    var m1 := PROMPT_SERVERS + (t.promptServers + ("); " + m2));
    var m0 := PROMPTS + (t.prompts + (" (" + m1));
    GroupMarks(ALLOWLISTED, t.allowlisted, ")", "");
    EmptyConcat(")");
    GroupMarks(RESOURCE_SERVERS, t.resourceServers, ")", m4);
    GroupMarks(RESOURCES, t.resources, " (", m3);
    GroupMarks(PROMPT_SERVERS, t.promptServers, "); ", m2);
    GroupMarks(PROMPTS, t.prompts, " (", m1);
    LaterMarksConcat(CAPABILITIES + ": ", m0);
    Associative(CAPABILITIES, ": ", m0);
    LaterMarksConcat(WITHOUT_BOTH, CAPABILITIES + (": " + m0));
    Associative(WITHOUT_BOTH, CAPABILITIES, ": " + m0);
    Associative(SUBJECT, WITHOUT_BOTH + CAPABILITIES, ": " + m0);
    assert BothText(t) == SUBJECT + (WITHOUT_BOTH + (CAPABILITIES + (": " + m0)));
  }

  lemma CodeOfBoth(s: string)
    requires PolicyCode(s) == None && Contains(s, BOTH_MISSING)
    requires !Contains(s, PROMPT_MISSING) && !Contains(s, RESOURCE_MISSING)
    ensures ReadCode(s) == Some(if Contains(s, PROMPT_CAPABILITY + "-") && Contains(s, RESOURCE_CAPABILITY + "-")
                                then CapabilitiesUnavailable else CapabilitiesBlockedByAllowlist)
  {
    hide PolicyCode, Contains, PROMPT_MISSING, RESOURCE_MISSING, BOTH_MISSING, PROMPT_CAPABILITY, RESOURCE_CAPABILITY;
  }

  lemma BothCode(t: Lists)
    requires AreListTexts(t)
    ensures ReadCode(BothText(t)) == Some(if t.promptServers[0] == '-' && t.resourceServers[0] == '-'
                                          then CapabilitiesUnavailable else CapabilitiesBlockedByAllowlist)
  {
    hide SUBJECT, WITHOUT_PROMPT, WITHOUT_RESOURCE, WITHOUT_BOTH, NEEDED, CAPABILITIES, PROMPT_CAPABILITY,
         RESOURCE_CAPABILITY, PROMPTS, RESOURCES, PROMPT_SERVERS, RESOURCE_SERVERS, ALLOWLISTED;
    hide BothMessage, Contains, PolicyCode, IsReport, Before, BothEnd;
    var s := BothText(t);
    VerbsDiffer();
    BothIsReport(t);
    NoPolicyCode(s);
    BothDash(t);
    BothSplits(t);
    var more :| s == BOTH_MISSING + more && s == SUBJECT + (WITHOUT_BOTH + (CAPABILITIES + more));
    OtherVerbAbsent(WITHOUT_BOTH, CAPABILITIES + more, WITHOUT_PROMPT, NEEDED, 17);
    OtherVerbAbsent(WITHOUT_BOTH, CAPABILITIES + more, WITHOUT_RESOURCE, NEEDED, 17);
    EmptyConcat(s);
    OccursBetween("", BOTH_MISSING, more);
    CodeOfBoth(s);
  }

  // ----- Neither capability is involved -----

  lemma ToolsRest(tools: string, allowlisted: string)
    requires IsQuiet(tools) && IsQuiet(allowlisted)
    ensures LaterMarks(WITHOUT_TOOLS + (TOOLS + (REASONS + (tools + (" (servers: " + (allowlisted + ")"))))))
  {
    HeadMarks();
    ReasonMarks();
    hide WITHOUT_TOOLS, TOOLS, REASONS, LaterMarks, IsQuiet;
    var servers := " (servers: ";
    NoMarks("");
    NoMarks(REASONS);
    NoMarks(TOOLS);
    NoMarks(WITHOUT_TOOLS);
    NoMarks(servers);
    assert IsLead(servers);
    GroupMarks(servers, allowlisted, ")", "");
    EmptyConcat(")");
    GroupMarks(REASONS, tools, "", servers + (allowlisted + ")"));
    EmptyConcat(servers + (allowlisted + ")"));
    LaterMarksConcat(TOOLS, REASONS + (tools + (servers + (allowlisted + ")"))));
    LaterMarksConcat(WITHOUT_TOOLS, TOOLS + (REASONS + (tools + (servers + (allowlisted + ")")))));
  }

  lemma ToolsCode(tools: string, allowlisted: string)
    requires IsQuiet(tools) && IsQuiet(allowlisted)
    ensures ReadCode(TOOLS_MISSING + (REASONS + (tools + (" (servers: " + (allowlisted + ")")))))
        == Some(ToolsUnavailable)
  {
    var rest := REASONS + (tools + (" (servers: " + (allowlisted + ")")));
    var s := TOOLS_MISSING + rest;
    VerbsDiffer();
    ToolsRest(tools, allowlisted);
    hide SUBJECT, WITHOUT_PROMPT, WITHOUT_RESOURCE, WITHOUT_BOTH, WITHOUT_TOOLS, NEEDED, CAPABILITIES, TOOLS, REASONS;
    Associative(WITHOUT_TOOLS, TOOLS, rest);
    Associative(SUBJECT, WITHOUT_TOOLS + TOOLS, rest);
    assert s == SUBJECT + (WITHOUT_TOOLS + (TOOLS + rest)) && LaterMarks(WITHOUT_TOOLS + (TOOLS + rest));
    NoPolicyCode(s);
    OtherVerbAbsent(WITHOUT_TOOLS, TOOLS + rest, WITHOUT_BOTH, CAPABILITIES, 0);
    OtherVerbAbsent(WITHOUT_TOOLS, TOOLS + rest, WITHOUT_PROMPT, NEEDED, 0);
    OtherVerbAbsent(WITHOUT_TOOLS, TOOLS + rest, WITHOUT_RESOURCE, NEEDED, 0);
    EmptyConcat(s);
    OccursBetween("", TOOLS_MISSING, rest);
    hide Contains, PolicyCode, TOOLS_MISSING;
  }

  lemma ReasonMarks()
    ensures 'M' !in REASONS && 'M' !in TOOLS && IsLead(REASONS)
  {
  }

  // ----- The verdict is read back -----

  /** The list is printed as if it were empty, or nearly so. */
  predicate IsDashed(names: seq<string>) {
    names != [] && names[0] != "" && names[0][0] == '-'
  }

  /** When the printed lists tell "none is blocked" from "some are blocked". */
  predicate CodeReadable(a: Attribution) {
    if a.promptTools != [] && a.resourceTools == [] then !IsDashed(a.blockedPromptServers)
    else if a.promptTools == [] && a.resourceTools != [] then !IsDashed(a.blockedResourceServers)
    else if a.promptTools != [] then
      (a.blockedPromptServers == [] && a.blockedResourceServers == [])
      || (a.blockedPromptServers != [] && !IsDashed(a.blockedPromptServers))
      || (a.blockedResourceServers != [] && !IsDashed(a.blockedResourceServers))
    else true
  }

  /** No printed list of blocked servers is the single name "-". */
  predicate ListsReadable(a: Attribution) {
    (a.promptTools != [] ==> a.blockedPromptServers != ["-"])
    && (a.resourceTools != [] ==> a.blockedResourceServers != ["-"])
  }

  /** What of an attribution is printed: the blocked servers of a capability that is
      not missing are dropped. */
  function Printed(a: Attribution): Attribution {
    a.(blockedPromptServers := if a.promptTools == [] then [] else a.blockedPromptServers,
       blockedResourceServers := if a.resourceTools == [] then [] else a.blockedResourceServers)
  }

  predicate IsPlainAttribution(a: Attribution) {
    ArePlainNames(a.promptTools) && ArePlainNames(a.resourceTools)
    && "-" !in a.promptTools && "-" !in a.resourceTools
    && ArePlainNames(a.blockedPromptServers) && ArePlainNames(a.blockedResourceServers)
  }

  /** What holds of a message that reads back. */
  predicate ReadsBack(message: string, a: Attribution) {
    match ReadCode(message)
    case None => false
    case Some(code) =>
      (code == StructuredCode(a) <==> CodeReadable(a))
      && (ReadAttribution(code, message) == Printed(a) <==> ListsReadable(a))
  }

  lemma ListFacts(names: seq<string>)
    requires ArePlainNames(names)
    ensures IsListText(JoinOrDash(names))
    ensures JoinOrDash(names)[0] == '-' <==> names == [] || IsDashed(names)
    ensures ListIn(JoinOrDash(names)) == names <==> names != ["-"]
    ensures names != [] ==> JoinOrDash(names) == JoinNames(names)
  {
    PrintedList(names);
    ListReadBack(names);
    if names != [] {
      assert IsPlainName(names[0]);
    }
    hide ListIn, JoinNames, IsListText;
  }

  lemma PromptReadsBack(servers: seq<string>, a: Attribution)
    requires IsPlainAttribution(a) && ArePlainNames(servers) && a.promptTools != [] && a.resourceTools == []
    ensures ReadsBack(SingleMessage(PROMPT_MISSING, PROMPT_SERVERS, JoinNames(a.promptTools), JoinOrDash(servers),
                                    JoinOrDash(a.blockedPromptServers)), a)
  {
    hide IsPlainName, ListIn, NamedList, ReadCode, SingleMessage, JoinOrDash, JoinNames, IsListText;
    ListFacts(a.promptTools);
    ListFacts(servers);
    ListFacts(a.blockedPromptServers);
    var tools, allowlisted, blocked := JoinOrDash(a.promptTools), JoinOrDash(servers),
                                       JoinOrDash(a.blockedPromptServers);
    PromptCode(tools, allowlisted, blocked);
    PromptLists(tools, allowlisted, blocked);
    hide PROMPT_MISSING, PROMPT_SERVERS, RESOURCE_MISSING, RESOURCE_SERVERS;
  }

  lemma PromptLists(tools: string, allowlisted: string, blocked: string)
    requires IsListText(tools) && IsListText(allowlisted) && IsListText(blocked)
    ensures NamedList(SingleMessage(PROMPT_MISSING, PROMPT_SERVERS, tools, allowlisted, blocked),
                      PROMPT_MISSING + ": ") == ListIn(tools)
    ensures NamedList(SingleMessage(PROMPT_MISSING, PROMPT_SERVERS, tools, allowlisted, blocked), PROMPT_SERVERS)
        == ListIn(blocked)
  {
    hide ListIn, NamedList, SingleMessage, IsListText;
    PromptVerb();
    Capabilities();
    hide PROMPT_CAPABILITY, RESOURCE_CAPABILITY, SUBJECT, NEEDED;
    SingleLists(WITHOUT_PROMPT, PROMPT_CAPABILITY, 't', tools, allowlisted, blocked);
    assert PROMPT_MISSING == Missing(WITHOUT_PROMPT);
  }

  lemma ResourceReadsBack(servers: seq<string>, a: Attribution)
    requires IsPlainAttribution(a) && ArePlainNames(servers) && a.promptTools == [] && a.resourceTools != []
    ensures ReadsBack(SingleMessage(RESOURCE_MISSING, RESOURCE_SERVERS, JoinNames(a.resourceTools), JoinOrDash(servers),
                                    JoinOrDash(a.blockedResourceServers)), a)
  {
    hide IsPlainName, ListIn, NamedList, ReadCode, SingleMessage, JoinOrDash, JoinNames, IsListText;
    ListFacts(a.resourceTools);
    ListFacts(servers);
    ListFacts(a.blockedResourceServers);
    var tools, allowlisted, blocked := JoinOrDash(a.resourceTools), JoinOrDash(servers),
                                       JoinOrDash(a.blockedResourceServers);
    ResourceCode(tools, allowlisted, blocked);
    ResourceLists(tools, allowlisted, blocked);
    hide PROMPT_MISSING, PROMPT_SERVERS, RESOURCE_MISSING, RESOURCE_SERVERS;
  }

  lemma ResourceLists(tools: string, allowlisted: string, blocked: string)
    requires IsListText(tools) && IsListText(allowlisted) && IsListText(blocked)
    ensures NamedList(SingleMessage(RESOURCE_MISSING, RESOURCE_SERVERS, tools, allowlisted, blocked),
                      RESOURCE_MISSING + ": ") == ListIn(tools)
    ensures NamedList(SingleMessage(RESOURCE_MISSING, RESOURCE_SERVERS, tools, allowlisted, blocked),
                      RESOURCE_SERVERS) == ListIn(blocked)
  {
    hide ListIn, NamedList, SingleMessage, IsListText;
    ResourceVerb();
    Capabilities();
    hide PROMPT_CAPABILITY, RESOURCE_CAPABILITY, SUBJECT, NEEDED;
    SingleLists(WITHOUT_RESOURCE, RESOURCE_CAPABILITY, 'e', tools, allowlisted, blocked);
    assert RESOURCE_MISSING == Missing(WITHOUT_RESOURCE);
  }

  lemma BothReadsBack(servers: seq<string>, a: Attribution)
    requires IsPlainAttribution(a) && ArePlainNames(servers) && a.promptTools != [] && a.resourceTools != []
    ensures ReadsBack(BothMessage(JoinNames(a.promptTools), JoinOrDash(a.blockedPromptServers),
                                  JoinNames(a.resourceTools), JoinOrDash(a.blockedResourceServers),
                                  JoinOrDash(servers)), a)
  {
    hide IsPlainName, ListIn, NamedList, ReadCode, BothMessage, JoinOrDash, JoinNames, IsListText, IsDashed;
    hide PROMPT_SERVERS, RESOURCE_SERVERS, PROMPTS, RESOURCES;
    ListFacts(a.promptTools);
    ListFacts(a.resourceTools);
    ListFacts(servers);
    ListFacts(a.blockedPromptServers);
    ListFacts(a.blockedResourceServers);
    var t := Lists(JoinOrDash(a.promptTools), JoinOrDash(a.blockedPromptServers), JoinOrDash(a.resourceTools),
                   JoinOrDash(a.blockedResourceServers), JoinOrDash(servers));
    BothCode(t);
    PromptListRead(t);
    ResourceListRead(t);
    PromptServersRead(t);
    ResourceServersRead(t);
  }

  lemma MessageReadsBack(unavailable: seq<string>, servers: seq<string>, a: Attribution)
    requires IsPlainAttribution(a) && ArePlainNames(servers) && ArePlainNames(unavailable)
    ensures ReadsBack(Message(unavailable, servers, a), a)
  {
    hide ReadCode, ReadAttribution, SingleMessage, BothMessage, PROMPT_MISSING, RESOURCE_MISSING, TOOLS_MISSING,
         REASONS;
    hide IsPlainName;
    if a.promptTools != [] && a.resourceTools == [] {
      PromptReadsBack(servers, a);
    } else if a.promptTools == [] && a.resourceTools != [] {
      ResourceReadsBack(servers, a);
    } else if a.promptTools != [] {
      BothReadsBack(servers, a);
    } else {
      PrintedList(servers);
      if unavailable != [] {
        PrintedList(unavailable);
      }
      ToolsCode(JoinNames(unavailable), JoinOrDash(servers));
      ToolsAttribution(Message(unavailable, servers, a));
    }
  }

  lemma ToolsAttribution(message: string)
    ensures ReadAttribution(ToolsUnavailable, message) == NO_ATTRIBUTION
  {
  }

  // ----- The whole rejection -----

  lemma {:induction false} FilterKeeps(names: seq<string>, keep: string -> bool)
    ensures forall name :: name in Filter(names, keep) <==> name in names && keep(name)
  {
    if names != [] {
      HeadAndTail(names);
      FilterKeeps(names[1..], keep);
    }
  }

  lemma SortDedupKeeps(names: seq<string>)
    ensures forall name :: name in SortDedup(names) <==> name in names
    ensures names == [] ==> SortDedup(names) == []
  {
    SortNamesSorts(names);
    DedupDedups(SortNames(names));
  }

  lemma LowerIsPlain(name: string)
    requires name != "" && forall c :: c in name ==> 'a' <= c <= 'z' || c == '_'
    ensures IsPlainName(name)
  {
  }

  lemma PlainPromptTool(name: string)
    requires IsPromptTool(name)
    ensures IsPlainName(name)
  {
    hide IsPlainName;
    LowerIsPlain(name);
  }

  lemma PlainResourceTool(name: string)
    requires IsResourceTool(name)
    ensures IsPlainName(name)
  {
    hide IsPlainName;
    LowerIsPlain(name);
  }

  lemma PlainTool(name: string)
    requires IsReadOnlyTool(name)
    ensures IsPlainName(name) && name != "-"
  {
    if IsPromptTool(name) {
      PlainPromptTool(name);
    } else {
      PlainResourceTool(name);
    }
    hide IsPlainName;
  }

  lemma ToolsArePlain(names: seq<string>, keep: string -> bool)
    requires forall name :: keep(name) ==> IsReadOnlyTool(name)
    ensures ArePlainNames(SortDedup(Filter(names, keep))) && "-" !in SortDedup(Filter(names, keep))
  {
    FilterKeeps(names, keep);
    SortDedupKeeps(Filter(names, keep));
    hide IsPlainName, IsReadOnlyTool, Filter, SortDedup;
    var tools := SortDedup(Filter(names, keep));
    forall k | 0 <= k < |tools| ensures IsPlainName(tools[k]) && tools[k] != "-" {
      assert tools[k] in tools;
      PlainTool(tools[k]);
    }
  }

  lemma FirstIsMember(names: seq<string>)
    requires names != []
    ensures exists name :: name in names
  {
    assert names[0] in names;
  }

  lemma NothingKept(names: seq<string>, keep: string -> bool)
    requires forall name :: name in names ==> !keep(name)
    ensures SortDedup(Filter(names, keep)) == []
  {
    FilterKeeps(names, keep);
    SortDedupKeeps(Filter(names, keep));
    var kept := SortDedup(Filter(names, keep));
    if kept != [] {
      FirstIsMember(kept);
    }
  }

  lemma SomethingKept(names: seq<string>, keep: string -> bool, name: string)
    requires name in names && keep(name)
    ensures SortDedup(SortDedup(Filter(names, keep)) + [] + []) != []
  {
    hide SortDedup, Filter;
    FilterKeeps(names, keep);
    SortDedupKeeps(Filter(names, keep));
    var kept := SortDedup(Filter(names, keep));
    assert name in kept + [] + [];
    SortDedupKeeps(kept + [] + []);
    assert name in SortDedup(kept + [] + []);
  }

  lemma AdmittedTool(name: string)
    requires IsReadOnlyTool(name) || IsBetaTool(name)
    ensures !IsSideEffectTool(name) && !IsDynamicTool(name)
  {
  }

  /** Only read-only tools were asked for, and at least one. */
  lemma RequestedTools(allowed: seq<string>)
    requires forall name :: name in allowed ==> IsReadOnlyTool(name) || IsBetaTool(name)
    requires exists name :: name in allowed && IsReadOnlyTool(name)
    ensures SortDedup(Filter(allowed, IsSideEffectTool)) == []
    ensures SortDedup(Filter(allowed, IsDynamicTool)) == []
    ensures SortDedup(SortDedup(Filter(allowed, IsReadOnlyTool)) + [] + []) != []
  {
    hide IsBetaTool, IsReadOnlyTool, IsSideEffectTool, IsDynamicTool, SortDedup, Filter;
    forall name | name in allowed ensures !IsSideEffectTool(name) && !IsDynamicTool(name) {
      AdmittedTool(name);
    }
    NothingKept(allowed, IsSideEffectTool);
    NothingKept(allowed, IsDynamicTool);
    var name :| name in allowed && IsReadOnlyTool(name);
    SomethingKept(allowed, IsReadOnlyTool, name);
  }

  /** Reading the printed refusal gives the structured one, up to blocked servers
      that are not printed, exactly when the lists tell themselves from a dash. */
  lemma RejectionReadsBack(allowed: seq<string>, unavailable: seq<string>, servers: seq<string>, probe: Probe)
    requires ArePlainNames(unavailable) && ArePlainNames(servers)
    requires ArePlainNames(probe.promptServers) && ArePlainNames(probe.resourceServers)
    requires forall name :: name in allowed ==> IsReadOnlyTool(name) || IsBetaTool(name)
    requires exists name :: name in allowed && IsReadOnlyTool(name)
    ensures var r := CapabilityRejection(allowed, unavailable, servers, probe);
            ReadRejection(allowed, r.error) == Some(r.(attribution := Printed(r.attribution)))
            <==> CodeReadable(r.attribution) && ListsReadable(r.attribution)
  {
    var a := Attribute(unavailable, probe);
    ToolsArePlain(unavailable, IsPromptTool);
    ToolsArePlain(unavailable, IsResourceTool);
    RequestedTools(allowed);
    hide ReadCode, ReadAttribution, StructuredCode, Message, SortDedup, Filter, IsPlainName;
    hide IsBetaTool, IsReadOnlyTool, IsSideEffectTool, IsDynamicTool, CodeReadable, ListsReadable, Printed;
    MessageReadsBack(unavailable, servers, a);
  }

  /** With names that do not begin with a dash the reader always succeeds, and loses
      just the blocked servers of a capability that is not missing. */
  lemma UndashedReadsBack(allowed: seq<string>, unavailable: seq<string>, servers: seq<string>, probe: Probe)
    requires ArePlainNames(unavailable) && ArePlainNames(servers)
    requires ArePlainNames(probe.promptServers) && ArePlainNames(probe.resourceServers)
    requires !IsDashed(probe.promptServers) && !IsDashed(probe.resourceServers)
    requires forall name :: name in allowed ==> IsReadOnlyTool(name) || IsBetaTool(name)
    requires exists name :: name in allowed && IsReadOnlyTool(name)
    ensures var r := CapabilityRejection(allowed, unavailable, servers, probe);
            ReadRejection(allowed, r.error) == Some(r.(attribution := Printed(r.attribution)))
            && (ReadRejection(allowed, r.error) == Some(r)
                <==> (r.attribution.promptTools == [] ==> probe.promptServers == [])
                     && (r.attribution.resourceTools == [] ==> probe.resourceServers == []))
  {
    hide ReadRejection, Message, StructuredCode, SortDedup, Filter, ArePlainNames, IsBetaTool, IsReadOnlyTool;
    RejectionReadsBack(allowed, unavailable, servers, probe);
  }
}
