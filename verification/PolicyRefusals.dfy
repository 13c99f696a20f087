/** The refusals that operator policy gives: how they are printed, and that each of them
    is read back as what it was.  Every phrase begins with the word "managed", which stands
    nowhere else in front of a blank. */
module PolicyRefusals {
  import opened Wrappers
  import opened Sequences
  import opened Names
  import opened TextSearch
  import opened RejectionText
  import opened RejectionTheorems

  // ----- What is printed -----

  /** Refusals that name tools only, or tools and servers. */
  datatype Refusal = ToolsRefused(code: Code) | ServersRefused(code: Code)

  const REFUSALS := {
    ToolsRefused(DisabledByOperatorPolicy), ToolsRefused(NoAllowlistedHttpServers),
    ToolsRefused(HttpTransportNotAllowed), ToolsRefused(DynamicToolsNotAdmitted),
    ToolsRefused(SideEffectsDisabled), ToolsRefused(SideEffectToolsNotAdmitted),
    ServersRefused(StdioSideEffectToolsNotAdmitted), ServersRefused(StdioDynamicToolsNotAdmitted),
    ServersRefused(StdioReadOnlyToolsNotAdmitted) }

  function Phrase(code: Code): string {
    match code
    case DisabledByOperatorPolicy => DISABLED
    case NoAllowlistedHttpServers => NO_SERVER
    case HttpTransportNotAllowed => NO_HTTP
    case DynamicToolsNotAdmitted => NO_DYNAMIC
    case SideEffectsDisabled => SIDE_EFFECTS_OFF
    case SideEffectToolsNotAdmitted => NO_SIDE_EFFECT
    case StdioSideEffectToolsNotAdmitted => NO_STDIO_BRIDGE
    case StdioDynamicToolsNotAdmitted => NO_STDIO_DYNAMIC
    case StdioReadOnlyToolsNotAdmitted => STDIO_ONLY
    case _ => ""
  }

  const BEFORE_ADMISSION := " before MCP tools can be " + "admitted"
  const CANDIDATES := " (candidate stdio "
  const SERVERS := "servers: "

  function Tail(refusal: Refusal, tools: seq<string>, servers: seq<string>): string {
    match refusal
    case ToolsRefused(code) =>
      (if code.NoAllowlistedHttpServers? then BEFORE_ADMISSION else "") + (": " + JoinNames(tools))
    case ServersRefused(code) =>
      (": " + JoinNames(tools))
      + (if code.StdioDynamicToolsNotAdmitted? then " (" + ((SERVERS + JoinNames(servers)) + ")")
         else CANDIDATES + ((SERVERS + JoinOrDash(servers)) + ")"))
  }

  function PolicyMessage(refusal: Refusal, tools: seq<string>, servers: seq<string>): string {
    Phrase(refusal.code) + Tail(refusal, tools, servers)
  }

  // ----- Where the word can stand -----

  /** The end of the word stands at `k`, a blank behind it, and no parenthesis behind that. */
  predicate WordAt(s: string, k: nat) {
    k + 4 < |s| && s[k] == 'g' && s[k + 1] == 'e' && s[k + 2] == 'd' && s[k + 3] == ' ' && s[k + 4] != '('
  }

  predicate WordOnlyFirst(s: string) {
    forall k: nat | k < |s| :: WordAt(s, k) ==> k == 4
  }

  /** Begins with the word, and holds its end nowhere else. */
  predicate IsPolicyPhrase(p: string) {
    && |p| > 35 && WordAt(p, 4)
    && forall k | 0 <= k < |p| - 2 :: p[k] == 'g' && p[k + 1] == 'e' && p[k + 2] == 'd' ==> k == 4
  }

  /** A blank behind the letter d has a parenthesis behind it. */
  predicate IsTail(s: string) {
    forall k | 0 <= k < |s| - 2 :: s[k] == 'd' && s[k + 1] == ' ' ==> s[k + 2] == '('
  }

  predicate NoBlankBehindD(s: string) {
    forall k | 0 <= k < |s| - 1 :: s[k] == 'd' ==> s[k + 1] != ' '
  }

  lemma BehindPhrase(p: string, tail: string)
    requires IsPolicyPhrase(p) && IsTail(tail)
    ensures WordOnlyFirst(p + tail)
  {
    var s := p + tail;
    forall k: nat | k < |s| ensures WordAt(s, k) ==> k == 4 {
      if k + 4 < |s| && k + 2 >= |p| {
        assert tail[k + 2 - |p|] == s[k + 2] && tail[k + 3 - |p|] == s[k + 3] && tail[k + 4 - |p|] == s[k + 4];
      } else if k + 4 < |s| {
        assert p[k] == s[k] && p[k + 1] == s[k + 1] && p[k + 2] == s[k + 2];
      }
    }
  }

  /** A phrase that differs from the beginning of such a text is not in it. */
  lemma OtherAbsent(s: string, other: string, d: nat)
    requires WordOnlyFirst(s) && |other| > 35 && WordAt(other, 4)
    requires d < |s| && d < |other| && other[d] != s[d]
    ensures !Contains(s, other)
  {
    hide OccursAt;
    if i :| 0 <= i <= |s| && OccursAt(s, other, i) {
      OccursInside(s, other, i);
      forall j | 4 <= j <= 8 ensures s[i + j] == other[j] {
        OccursChar(s, other, i, j);
      }
      assert WordAt(s, i + 4);
      OccursChar(s, other, i, d);
    }
  }

  lemma OwnPresent(p: string, tail: string)
    ensures Contains(p + tail, p)
  {
    OccursBetween("", p, tail);
    EmptyConcat(p + tail);
  }

  // ----- What follows a phrase -----

  lemma NoBlankConcat(a: string, b: string)
    requires NoBlankBehindD(a) && NoBlankBehindD(b) && (b != "" ==> b[0] != ' ')
    ensures NoBlankBehindD(a + b)
  {
    var s := a + b;
    forall k | 0 <= k < |s| - 1 && s[k] == 'd' ensures s[k + 1] != ' ' {
      if k >= |a| {
        assert b[k - |a|] == s[k] && b[k + 1 - |a|] == s[k + 1];
      }
    }
  }

  lemma ListIsQuiet(names: seq<string>)
    requires ArePlainNames(names)
    ensures NoBlankBehindD(JoinNames(names)) && (JoinNames(names) != "" ==> JoinNames(names)[0] != ' ')
    ensures NoBlankBehindD(JoinOrDash(names)) && JoinOrDash(names)[0] != ' '
  {
    if names != [] {
      JoinedCharacters(names);
    }
  }

  lemma LeadsAreQuiet()
    ensures NoBlankBehindD(": ") && NoBlankBehindD(BEFORE_ADMISSION) && NoBlankBehindD(CANDIDATES)
    ensures NoBlankBehindD(SERVERS) && NoBlankBehindD(")") && NoBlankBehindD(" (") && NoBlankBehindD("")
    ensures |CANDIDATES| > 1 && CANDIDATES[0] == ' ' && CANDIDATES[1] == '('
    ensures |SERVERS| > 1 && SERVERS[0] != ' '
  {
  }

  lemma QuietThenParenthesis(a: string, b: string)
    requires NoBlankBehindD(a) && NoBlankBehindD(b) && (b != "" ==> |b| > 1 && b[0] == ' ' && b[1] == '(')
    ensures IsTail(a + b)
  {
    var s := a + b;
    forall k | 0 <= k < |s| - 2 ensures s[k] == 'd' && s[k + 1] == ' ' ==> s[k + 2] == '(' {
      if k >= |a| {
        assert b[k - |a|] == s[k] && b[k + 1 - |a|] == s[k + 1];
      } else if k + 1 < |a| {
        assert a[k] == s[k] && a[k + 1] == s[k + 1];
      } else {
        assert s[k + 2] == b[1];
      }
    }
  }

  lemma TailIsTail(refusal: Refusal, tools: seq<string>, servers: seq<string>)
    requires ArePlainNames(tools) && ArePlainNames(servers)
    ensures IsTail(Tail(refusal, tools, servers))
  {
    LeadsAreQuiet();
    ListIsQuiet(tools);
    ListIsQuiet(servers);
    hide NoBlankBehindD, IsTail, BEFORE_ADMISSION, CANDIDATES, SERVERS, JoinNames, JoinOrDash, ArePlainNames;
    match refusal
    case ToolsRefused(code) =>
      var lead := if code.NoAllowlistedHttpServers? then BEFORE_ADMISSION else "";
      NoBlankConcat(": ", JoinNames(tools));
      NoBlankConcat(lead, ": " + JoinNames(tools));
      EmptyConcat(lead + (": " + JoinNames(tools)));
      QuietThenParenthesis(lead + (": " + JoinNames(tools)), "");
    case ServersRefused(code) =>
      var lead := if code.StdioDynamicToolsNotAdmitted? then " (" else CANDIDATES;
      var list := if code.StdioDynamicToolsNotAdmitted? then JoinNames(servers) else JoinOrDash(servers);
      NoBlankConcat(": ", JoinNames(tools));
      NoBlankConcat(SERVERS, list);
      NoBlankConcat(SERVERS + list, ")");
      NoBlankConcat(lead, (SERVERS + list) + ")");
      QuietThenParenthesis(": " + JoinNames(tools), lead + ((SERVERS + list) + ")"));
  }

  // ----- The phrases differ -----

  /** Begins with the word; no other g has "ed" behind it. */
  predicate IsFirstPiece(p: string) {
    |p| > 20 && WordAt(p, 4)
    && forall k | 0 <= k < |p| :: p[k] == 'g' ==> k == 4 || (k + 1 < |p| && p[k + 1] != 'e')
  }

  predicate IsLaterPiece(p: string) {
    forall k | 0 <= k < |p| :: p[k] == 'g' ==> k + 2 < |p| && (p[k + 1] != 'e' || p[k + 2] != 'd')
  }

  lemma PiecesMakePhrase(a: string, b: string)
    requires IsFirstPiece(a) && IsLaterPiece(b) && |a| + |b| > 35
    ensures IsPolicyPhrase(a + b)
  {
    var p := a + b;
    assert p[..9] == a[..9];
    forall k | 0 <= k < |p| - 2 ensures p[k] == 'g' && p[k + 1] == 'e' && p[k + 2] == 'd' ==> k == 4 {
      if k >= |a| {
        assert b[k - |a|] == p[k] && b[k + 1 - |a|] == p[k + 1] && b[k + 2 - |a|] == p[k + 2];
      }
    }
  }

  lemma LaterPieces(a: string, b: string)
    requires IsLaterPiece(a) && IsLaterPiece(b)
    ensures IsLaterPiece(a + b)
  {
    var p := a + b;
    forall k | 0 <= k < |p| ensures p[k] == 'g' ==> k + 2 < |p| && (p[k + 1] != 'e' || p[k + 2] != 'd') {
      if k >= |a| {
        assert b[k - |a|] == p[k];
      }
    }
  }

  lemma DisabledPieces()
    ensures IsFirstPiece("managed MCP tools are disabled by ") && IsLaterPiece("operator policy")
  {
  }

  lemma DisabledSigns()
    ensures IsPolicyPhrase(DISABLED) && DISABLED[8] == 'M' && DISABLED[12] == 't'
  {
    DisabledPieces();
    hide IsFirstPiece, IsLaterPiece;
    PiecesMakePhrase("managed MCP tools are disabled by ", "operator policy");
  }

  lemma ServerPieces()
    ensures var a := "managed MCP policy requires ";
            IsFirstPiece(a) && a[8] == 'M' && a[12] == 'p' && a[19] == 'r'
  {
  }

  lemma HttpPieces()
    ensures var a := "managed MCP policy does ";
            IsFirstPiece(a) && a[8] == 'M' && a[12] == 'p' && a[19] == 'd'
  {
  }

  lemma ServerSigns()
    ensures IsPolicyPhrase(NO_SERVER) && NO_SERVER[8] == 'M' && NO_SERVER[12] == 'p' && NO_SERVER[19] == 'r'
    ensures NO_SERVER[28] == 'a'
  {
    ServerPieces();
    assert IsLaterPiece("at least one ") && IsLaterPiece("allowlisted HTTP server");
    hide IsFirstPiece, IsLaterPiece;
    LaterPieces("at least one ", "allowlisted HTTP server");
    PiecesMakePhrase("managed MCP policy requires ", "at least one " + "allowlisted HTTP server");
  }

  lemma HttpSigns()
    ensures IsPolicyPhrase(NO_HTTP) && NO_HTTP[8] == 'M' && NO_HTTP[12] == 'p' && NO_HTTP[19] == 'd'
  {
    HttpPieces();
    assert IsLaterPiece("not currently ") && IsLaterPiece("admit HTTP MCP servers");
    hide IsFirstPiece, IsLaterPiece;
    LaterPieces("not currently ", "admit HTTP MCP servers");
    PiecesMakePhrase("managed MCP policy does ", "not currently " + "admit HTTP MCP servers");
  }

  lemma SideEffectPieces()
    ensures var a := "managed MCP side-effect ";
            IsFirstPiece(a) && a[8] == 'M' && a[12] == 's' && a[13] == 'i'
  {
  }

  lemma SideEffectSigns()
    ensures IsPolicyPhrase(SIDE_EFFECTS_OFF) && SIDE_EFFECTS_OFF[8] == 'M' && SIDE_EFFECTS_OFF[12] == 's'
    ensures SIDE_EFFECTS_OFF[13] == 'i'
  {
    SideEffectPieces();
    assert IsLaterPiece("tools are ") && IsLaterPiece("disabled by operator policy");
    hide IsFirstPiece, IsLaterPiece;
    LaterPieces("tools are ", "disabled by operator policy");
    PiecesMakePhrase("managed MCP side-effect ", "tools are " + "disabled by operator policy");
  }

  lemma DynamicPieces()
    ensures IsFirstPiece("managed runtime does not admit ") && IsLaterPiece("model-callable MCP tools")
  {
  }

  lemma DynamicSigns()
    ensures IsPolicyPhrase(NO_DYNAMIC) && NO_DYNAMIC[8] == 'r' && NO_DYNAMIC[16] == 'd' && NO_DYNAMIC[25] == 'a'
  {
    DynamicPieces();
    hide IsFirstPiece, IsLaterPiece;
    PiecesMakePhrase("managed runtime does not admit ", "model-callable MCP tools");
  }

  lemma NotYetSigns()
    ensures IsFirstPiece(NOT_YET) && |NOT_YET| == 35
    ensures NOT_YET[8] == 'r' && NOT_YET[16] == 'd' && NOT_YET[25] == 'y'
  {
  }

  lemma NotYetPhrase(rest: string)
    requires IsLaterPiece(rest) && rest != ""
    ensures var p := NOT_YET + rest;
            IsPolicyPhrase(p) && p[8] == 'r' && p[16] == 'd' && p[25] == 'y' && p[35] == rest[0]
  {
    NotYetSigns();
    hide NOT_YET, IsFirstPiece, IsLaterPiece;
    PiecesMakePhrase(NOT_YET, rest);
  }

  lemma NotYetSideEffect()
    ensures var p := NO_SIDE_EFFECT; IsPolicyPhrase(p) && p[8] == 'r' && p[16] == 'd' && p[25] == 'y' && p[35] == 'M'
  {
    hide NOT_YET;
    NotYetPhrase("MCP side-effect tools");
  }

  lemma NotYetBridge()
    ensures var p := NO_STDIO_BRIDGE; IsPolicyPhrase(p) && p[8] == 'r' && p[16] == 'd' && p[25] == 'y' && p[35] == 's'
  {
    hide NOT_YET;
    NotYetPhrase("stdio-only MCP bridge tools");
  }

  lemma NotYetDynamic()
    ensures var p := NO_STDIO_DYNAMIC; IsPolicyPhrase(p) && p[8] == 'r' && p[16] == 'd' && p[25] == 'y' && p[35] == 'm'
  {
    var a, b, c := "model-callable MCP tools that ", "currently resolve only to ", "stdio servers";
    assert IsLaterPiece(a) && IsLaterPiece(b) && IsLaterPiece(c);
    hide NOT_YET, IsLaterPiece;
    LaterPieces(b, c);
    LaterPieces(a, b + c);
    NotYetPhrase(a + (b + c));
  }

  lemma StdioFirst()
    ensures var a := "managed runtime currently admits "; IsFirstPiece(a) && a[8] == 'r' && a[16] == 'c'
  {
  }

  lemma StdioMiddle()
    ensures IsLaterPiece("read-only MCP bridge tools only ") && IsLaterPiece("through allowlisted HTTP MCP servers; ")
  {
  }

  lemma StdioLast()
    ensures IsLaterPiece("current operator policy leaves only ") && IsLaterPiece("stdio MCP candidates for these tools")
  {
  }

  lemma StdioSigns()
    ensures IsPolicyPhrase(STDIO_ONLY) && STDIO_ONLY[8] == 'r' && STDIO_ONLY[16] == 'c'
  {
    StdioFirst();
    StdioMiddle();
    StdioLast();
    hide IsFirstPiece, IsLaterPiece;
    var a, b := "managed runtime currently admits ", "read-only MCP bridge tools only ";
    var c, d := "through allowlisted HTTP MCP servers; ", "current operator policy leaves only ";
    var e := "stdio MCP candidates for these tools";
    LaterPieces(d, e);
    LaterPieces(c, d + e);
    LaterPieces(b, c + (d + e));
    PiecesMakePhrase(a, b + (c + (d + e)));
  }

  /** No phrase that is looked for earlier is in what is printed. */
  lemma GateReadsBack(tail: string)
    requires IsTail(tail)
    ensures PolicyCode(DISABLED + tail) == Some(DisabledByOperatorPolicy)
    ensures PolicyCode(NO_SERVER + tail) == Some(NoAllowlistedHttpServers)
    ensures PolicyCode(NO_HTTP + tail) == Some(HttpTransportNotAllowed)
  {
    DisabledSigns();
    ServerSigns();
    HttpSigns();
    hide DISABLED, NO_SERVER, NO_HTTP, NO_DYNAMIC, SIDE_EFFECTS_OFF, NO_SIDE_EFFECT, NO_STDIO_BRIDGE, NO_STDIO_DYNAMIC,
         STDIO_ONLY, Contains, IsPolicyPhrase, IsTail;
    OwnPresent(DISABLED, tail);
    OwnPresent(NO_SERVER, tail);
    OwnPresent(NO_HTTP, tail);
    Absent(NO_SERVER, tail, DISABLED, 12);
    Absent(NO_HTTP, tail, DISABLED, 12);
    Absent(NO_HTTP, tail, NO_SERVER, 19);
  }

  lemma Absent(p: string, tail: string, other: string, d: nat)
    requires IsPolicyPhrase(p) && IsTail(tail) && IsPolicyPhrase(other)
    requires d <= 35 && other[d] != p[d]
    ensures !Contains(p + tail, other)
  {
    hide IsTail, Contains;
    BehindPhrase(p, tail);
    OtherAbsent(p + tail, other, d);
  }

  /** The phrases of the gate begin with "managed MCP"; those about the runtime do not. */
  lemma GateAbsent(p: string, tail: string)
    requires IsPolicyPhrase(p) && IsTail(tail) && p[8] == 'r'
    ensures !Contains(p + tail, DISABLED) && !Contains(p + tail, NO_SERVER) && !Contains(p + tail, NO_HTTP)
    ensures !Contains(p + tail, SIDE_EFFECTS_OFF)
  {
    DisabledSigns();
    ServerSigns();
    HttpSigns();
    SideEffectSigns();
    hide DISABLED, NO_SERVER, NO_HTTP, SIDE_EFFECTS_OFF, Contains, IsPolicyPhrase, IsTail;
    Absent(p, tail, DISABLED, 8);
    Absent(p, tail, NO_SERVER, 8);
    Absent(p, tail, NO_HTTP, 8);
    Absent(p, tail, SIDE_EFFECTS_OFF, 8);
  }

  lemma SideEffectsReadBack(tail: string)
    requires IsTail(tail)
    ensures PolicyCode(SIDE_EFFECTS_OFF + tail) == Some(SideEffectsDisabled)
  {
    DisabledSigns();
    ServerSigns();
    HttpSigns();
    SideEffectSigns();
    DynamicSigns();
    hide DISABLED, NO_SERVER, NO_HTTP, NO_DYNAMIC, SIDE_EFFECTS_OFF, NO_SIDE_EFFECT, NO_STDIO_BRIDGE, NO_STDIO_DYNAMIC,
         STDIO_ONLY, Contains, IsPolicyPhrase, IsTail;
    OwnPresent(SIDE_EFFECTS_OFF, tail);
    Absent(SIDE_EFFECTS_OFF, tail, DISABLED, 12);
    Absent(SIDE_EFFECTS_OFF, tail, NO_SERVER, 12);
    Absent(SIDE_EFFECTS_OFF, tail, NO_HTTP, 12);
    Absent(SIDE_EFFECTS_OFF, tail, NO_DYNAMIC, 8);
  }

  lemma DynamicReadsBack(tail: string)
    requires IsTail(tail)
    ensures PolicyCode(NO_DYNAMIC + tail) == Some(DynamicToolsNotAdmitted)
  {
    DynamicSigns();
    hide DISABLED, NO_SERVER, NO_HTTP, NO_DYNAMIC, SIDE_EFFECTS_OFF, NO_SIDE_EFFECT, NO_STDIO_BRIDGE, NO_STDIO_DYNAMIC,
         STDIO_ONLY, Contains, IsPolicyPhrase, IsTail;
    GateAbsent(NO_DYNAMIC, tail);
    OwnPresent(NO_DYNAMIC, tail);
  }

  lemma NotYetReadsBack(tail: string)
    requires IsTail(tail)
    ensures PolicyCode(NO_SIDE_EFFECT + tail) == Some(SideEffectToolsNotAdmitted)
    ensures PolicyCode(NO_STDIO_BRIDGE + tail) == Some(StdioSideEffectToolsNotAdmitted)
    ensures PolicyCode(NO_STDIO_DYNAMIC + tail) == Some(StdioDynamicToolsNotAdmitted)
  {
    DynamicSigns();
    NotYetSideEffect();
    NotYetBridge();
    NotYetDynamic();
    hide DISABLED, NO_SERVER, NO_HTTP, NO_DYNAMIC, SIDE_EFFECTS_OFF, NO_SIDE_EFFECT, NO_STDIO_BRIDGE, NO_STDIO_DYNAMIC,
         STDIO_ONLY, Contains, IsPolicyPhrase, IsTail;
    GateAbsent(NO_SIDE_EFFECT, tail);
    GateAbsent(NO_STDIO_BRIDGE, tail);
    GateAbsent(NO_STDIO_DYNAMIC, tail);
    Absent(NO_SIDE_EFFECT, tail, NO_DYNAMIC, 25);
    Absent(NO_STDIO_BRIDGE, tail, NO_DYNAMIC, 25);
    Absent(NO_STDIO_DYNAMIC, tail, NO_DYNAMIC, 25);
    Absent(NO_STDIO_BRIDGE, tail, NO_SIDE_EFFECT, 35);
    Absent(NO_STDIO_DYNAMIC, tail, NO_SIDE_EFFECT, 35);
    Absent(NO_STDIO_DYNAMIC, tail, NO_STDIO_BRIDGE, 35);
    OwnPresent(NO_SIDE_EFFECT, tail);
    OwnPresent(NO_STDIO_BRIDGE, tail);
    OwnPresent(NO_STDIO_DYNAMIC, tail);
  }

  lemma StdioOnlyReadsBack(tail: string)
    requires IsTail(tail)
    ensures PolicyCode(STDIO_ONLY + tail) == Some(StdioReadOnlyToolsNotAdmitted)
  {
    DynamicSigns();
    NotYetSideEffect();
    NotYetBridge();
    NotYetDynamic();
    StdioSigns();
    hide DISABLED, NO_SERVER, NO_HTTP, NO_DYNAMIC, SIDE_EFFECTS_OFF, NO_SIDE_EFFECT, NO_STDIO_BRIDGE, NO_STDIO_DYNAMIC,
         STDIO_ONLY, Contains, IsPolicyPhrase, IsTail;
    GateAbsent(STDIO_ONLY, tail);
    Absent(STDIO_ONLY, tail, NO_DYNAMIC, 16);
    Absent(STDIO_ONLY, tail, NO_SIDE_EFFECT, 16);
    Absent(STDIO_ONLY, tail, NO_STDIO_BRIDGE, 16);
    Absent(STDIO_ONLY, tail, NO_STDIO_DYNAMIC, 16);
    OwnPresent(STDIO_ONLY, tail);
  }

  /** Main result: each of the nine refusals is read back as what it was, whatever tools and
      servers it names. */
  lemma PolicyReadsBack(refusal: Refusal, tools: seq<string>, servers: seq<string>)
    requires refusal in REFUSALS && ArePlainNames(tools) && ArePlainNames(servers)
    ensures ReadCode(PolicyMessage(refusal, tools, servers)) == Some(refusal.code)
  {
    var tail := Tail(refusal, tools, servers);
    TailIsTail(refusal, tools, servers);
    hide Tail, IsTail, PolicyCode, ArePlainNames;
    GateReadsBack(tail);
    SideEffectsReadBack(tail);
    DynamicReadsBack(tail);
    NotYetReadsBack(tail);
    StdioOnlyReadsBack(tail);
  }

  lemma HoldsBetween(message: string, front: string, phrase: string, rest: string)
    requires message == front + (phrase + rest)
    ensures Contains(message, phrase)
  {
    OccursBetween(front, phrase, rest);
  }

  /** A refusal names the tools it is about, and the servers if it is about those. */
  lemma RefusalNames(refusal: Refusal, tools: seq<string>, servers: seq<string>)
    ensures Contains(PolicyMessage(refusal, tools, servers), ": " + JoinNames(tools))
    ensures refusal.ServersRefused? ==>
              Contains(PolicyMessage(refusal, tools, servers),
                       "servers: " + (if servers == [] && !refusal.code.StdioDynamicToolsNotAdmitted? then "-"
                                      else JoinNames(servers)))
  {
    hide Phrase, JoinNames, Contains, BEFORE_ADMISSION, CANDIDATES;
    var phrase, list, message := Phrase(refusal.code), ": " + JoinNames(tools), PolicyMessage(refusal, tools, servers);
    match refusal
    case ToolsRefused(code) =>
      var lead := if code.NoAllowlistedHttpServers? then BEFORE_ADMISSION else "";
      EmptyConcat(list);
      Associative(phrase, lead, list);
      HoldsBetween(message, phrase + lead, list, "");
    case ServersRefused(code) =>
      var lead := if code.StdioDynamicToolsNotAdmitted? then " (" else CANDIDATES;
      var named := if code.StdioDynamicToolsNotAdmitted? then JoinNames(servers) else JoinOrDash(servers);
      var asked := "servers: " + named;
      HoldsBetween(message, phrase, list, lead + (asked + ")"));
      Associative(list, lead, asked + ")");
      Associative(phrase, list + lead, asked + ")");
      HoldsBetween(message, phrase + (list + lead), asked, ")");
  }

  // ----- A policy that is invalid -----

  const UNKNOWN_SERVERS := "managed.mcp.allowed_servers references"
  const STDIO_NEEDS := "managed MCP stdio policy requires"
  const UNKNOWN_STDIO := "managed.mcp.stdio.allowed_servers " + "references"
  const STDIO_KEYS := "managed.mcp.stdio.allowed_env_keys"

  lemma SubjectWord()
    ensures |SUBJECT| > 20 && WordAt(SUBJECT, 16)
  {
  }

  /** No report about capabilities, each of which has the word further behind. */
  lemma NoReport(s: string, rest: string)
    requires WordOnlyFirst(s)
    ensures !Contains(s, SUBJECT + rest)
  {
    SubjectWord();
    var phrase := SUBJECT + rest;
    assert WordAt(phrase, 16);
    hide SUBJECT, OccursAt;
    if i :| 0 <= i <= |s| && OccursAt(s, phrase, i) {
      OccursInside(s, phrase, i);
      forall j | 16 <= j <= 20 ensures s[i + j] == phrase[j] {
        OccursChar(s, phrase, i, j);
      }
      assert WordAt(s, i + 16);
    }
  }

  lemma DottedReadsBack(s: string)
    requires WordOnlyFirst(s) && |s| > 20 && s[7] == '.'
    ensures PolicyCode(s) == None
  {
    DisabledSigns();
    ServerSigns();
    HttpSigns();
    DynamicSigns();
    SideEffectSigns();
    NotYetSideEffect();
    NotYetBridge();
    NotYetDynamic();
    StdioSigns();
    hide DISABLED, NO_SERVER, NO_HTTP, NO_DYNAMIC, SIDE_EFFECTS_OFF, NO_SIDE_EFFECT, NO_STDIO_BRIDGE, NO_STDIO_DYNAMIC,
         STDIO_ONLY, Contains, WordOnlyFirst;
    OtherAbsent(s, DISABLED, 7);
    OtherAbsent(s, NO_SERVER, 7);
    OtherAbsent(s, NO_HTTP, 7);
    OtherAbsent(s, NO_DYNAMIC, 7);
    OtherAbsent(s, SIDE_EFFECTS_OFF, 7);
    OtherAbsent(s, NO_SIDE_EFFECT, 7);
    OtherAbsent(s, NO_STDIO_BRIDGE, 7);
    OtherAbsent(s, NO_STDIO_DYNAMIC, 7);
    OtherAbsent(s, STDIO_ONLY, 7);
  }

  /** A text about the policy itself, told apart from the phrases of the gate. */
  lemma UngatedReadsBack(s: string)
    requires WordOnlyFirst(s) && |s| > 30 && s[8] == 'M'
    requires (s[12] == 's' && s[13] == 't') || (s[12] == 'p' && s[19] == 'r' && s[28] != 'a')
    ensures PolicyCode(s) == None
  {
    DisabledSigns();
    ServerSigns();
    HttpSigns();
    DynamicSigns();
    SideEffectSigns();
    NotYetSideEffect();
    NotYetBridge();
    NotYetDynamic();
    StdioSigns();
    hide DISABLED, NO_SERVER, NO_HTTP, NO_DYNAMIC, SIDE_EFFECTS_OFF, NO_SIDE_EFFECT, NO_STDIO_BRIDGE, NO_STDIO_DYNAMIC,
         STDIO_ONLY, Contains, WordOnlyFirst;
    OtherAbsent(s, DISABLED, 12);
    OtherAbsent(s, NO_SERVER, if s[12] == 's' then 12 else 28);
    OtherAbsent(s, NO_HTTP, if s[12] == 's' then 12 else 19);
    OtherAbsent(s, SIDE_EFFECTS_OFF, if s[12] == 's' then 13 else 12);
    OtherAbsent(s, NO_DYNAMIC, 8);
    OtherAbsent(s, NO_SIDE_EFFECT, 8);
    OtherAbsent(s, NO_STDIO_BRIDGE, 8);
    OtherAbsent(s, NO_STDIO_DYNAMIC, 8);
    OtherAbsent(s, STDIO_ONLY, 8);
  }

  lemma UnknownSigns()
    ensures |UNKNOWN_SERVERS| > 30 && UNKNOWN_SERVERS[7] == '.'
    ensures |UNKNOWN_STDIO| > 30 && UNKNOWN_STDIO[7] == '.' && |STDIO_KEYS| > 30 && STDIO_KEYS[7] == '.'
  {
  }

  lemma NeedsSigns()
    ensures |STDIO_NEEDS| > 30 && STDIO_NEEDS[8] == 'M' && STDIO_NEEDS[12] == 's' && STDIO_NEEDS[13] == 't'
    ensures |NEEDS_HTTP| > 30 && NEEDS_HTTP[8] == 'M' && NEEDS_HTTP[12] == 'p' && NEEDS_HTTP[19] == 'r'
        && NEEDS_HTTP[28] == '`'
  {
  }

  /** Complaints about the policy are read back as such, as long as the word stands nowhere
      else in them. */
  lemma InvalidReadsBack(phrase: string, tail: string)
    requires phrase in {UNKNOWN_SERVERS, NEEDS_HTTP, STDIO_NEEDS, UNKNOWN_STDIO, STDIO_KEYS}
    requires WordOnlyFirst(phrase + tail)
    ensures ReadCode(phrase + tail) == Some(InvalidOperatorPolicy)
  {
    var s := phrase + tail;
    UnknownSigns();
    NeedsSigns();
    OwnPresent(phrase, tail);
    NoReport(s, WITHOUT_PROMPT + NEEDED);
    NoReport(s, WITHOUT_RESOURCE + NEEDED);
    NoReport(s, WITHOUT_BOTH + CAPABILITIES);
    NoReport(s, WITHOUT_TOOLS + TOOLS);
    hide NEEDS_HTTP, SUBJECT, WITHOUT_PROMPT, WITHOUT_RESOURCE, WITHOUT_BOTH, WITHOUT_TOOLS, NEEDED, CAPABILITIES,
         TOOLS, PolicyCode, Contains, WordOnlyFirst;
    if phrase == NEEDS_HTTP || phrase == STDIO_NEEDS {
      UngatedReadsBack(s);
    } else {
      DottedReadsBack(s);
    }
  }

  // ----- The tools that are asked for -----

  /** A reading lists, each in order and without repetition, the tools that were asked for:
      those that only read, those with side effects, and those that are neither nor built in;
      it fails exactly when the text has no known phrase or no such tool was asked for. */
  lemma RequestedAreListed(allowed: seq<string>, error: string)
    ensures match ReadRejection(allowed, error)
            case None =>
              ReadCode(error) == None
              || forall name :: name in allowed ==>
                   name in {"read_file", "search_files", "write_file", "patch", "memory_read", "memory_write",
                            "web_search", "web_extract", "vision_analyze", "skill_list", "skill_view"}
            case Some(r) =>
              && ReadCode(error) == Some(r.code) && r.error == error
              && StrictlyAscending(r.readOnly) && StrictlyAscending(r.sideEffect) && StrictlyAscending(r.dynamic)
              && StrictlyAscending(r.requested)
              && (forall name :: name in r.readOnly <==>
                    name in allowed && name in {"mcp_prompt_list", "mcp_prompt_get", "mcp_resource_list",
                                                "mcp_resource_template_list", "mcp_resource_read"})
              && (forall name :: name in r.sideEffect <==>
                    name in allowed && name in {"mcp_resource_subscribe", "mcp_resource_unsubscribe",
                                                "mcp_resource_updates"})
              && (forall name :: name in r.requested <==>
                    name in r.readOnly || name in r.sideEffect || name in r.dynamic)
              && (forall name :: name in allowed ==>
                    name in r.requested
                    || name in {"read_file", "search_files", "write_file", "patch", "memory_read", "memory_write",
                                "web_search", "web_extract", "vision_analyze", "skill_list", "skill_view"})
              && (forall name :: name in r.dynamic ==>
                    name in allowed && name !in r.readOnly && name !in r.sideEffect
                    && name !in {"read_file", "search_files", "write_file", "patch", "memory_read", "memory_write",
                                 "web_search", "web_extract", "vision_analyze", "skill_list", "skill_view"})
  {
    hide ReadCode, ReadAttribution, SortDedup, Filter;
    FilterKeeps(allowed, IsReadOnlyTool);
    FilterKeeps(allowed, IsSideEffectTool);
    FilterKeeps(allowed, IsDynamicTool);
    var readOnly := SortDedup(Filter(allowed, IsReadOnlyTool));
    var sideEffect := SortDedup(Filter(allowed, IsSideEffectTool));
    var dynamic := SortDedup(Filter(allowed, IsDynamicTool));
    SortedAndKept(Filter(allowed, IsReadOnlyTool));
    SortedAndKept(Filter(allowed, IsSideEffectTool));
    SortedAndKept(Filter(allowed, IsDynamicTool));
    SortedAndKept(readOnly + sideEffect + dynamic);
  }

  lemma SortedAndKept(names: seq<string>)
    ensures StrictlyAscending(SortDedup(names)) && forall name :: name in SortDedup(names) <==> name in names
  {
    SortNamesSorts(names);
    DedupDedups(SortNames(names));
  }

  // ----- The verdict on missing capabilities -----

  /** Which of the unavailable tools are about prompts and which about resources decides,
      together with the servers that the allowlist keeps out, what the verdict is. */
  lemma VerdictMeans(allowed: seq<string>, unavailable: seq<string>, servers: seq<string>, probe: Probe)
    ensures var r := CapabilityRejection(allowed, unavailable, servers, probe);
            var a := r.attribution;
            var prompts := exists name :: name in unavailable && name in {"mcp_prompt_list", "mcp_prompt_get"};
            var resources := exists name ::
                               name in unavailable && name in {"mcp_resource_list", "mcp_resource_template_list",
                                                               "mcp_resource_read"};
            && (forall name :: name in a.promptTools <==>
                  name in unavailable && name in {"mcp_prompt_list", "mcp_prompt_get"})
            && (forall name :: name in a.resourceTools <==>
                  name in unavailable && name in {"mcp_resource_list", "mcp_resource_template_list",
                                                  "mcp_resource_read"})
            && StrictlyAscending(a.promptTools) && StrictlyAscending(a.resourceTools)
            && a.blockedPromptServers == probe.promptServers && a.blockedResourceServers == probe.resourceServers
            && r.code ==
               if prompts && resources then
                 if probe.promptServers == [] && probe.resourceServers == [] then CapabilitiesUnavailable
                 else CapabilitiesBlockedByAllowlist
               else if prompts then
                 if probe.promptServers == [] then PromptUnavailable else PromptBlockedByAllowlist
               else if resources then
                 if probe.resourceServers == [] then ResourceUnavailable else ResourceBlockedByAllowlist
               else ToolsUnavailable
  {
    hide Message, SortDedup, Filter;
    var promptTools := SortDedup(Filter(unavailable, IsPromptTool));
    var resourceTools := SortDedup(Filter(unavailable, IsResourceTool));
    FilterKeeps(unavailable, IsPromptTool);
    FilterKeeps(unavailable, IsResourceTool);
    SortedAndKept(Filter(unavailable, IsPromptTool));
    SortedAndKept(Filter(unavailable, IsResourceTool));
    assert promptTools != [] ==> promptTools[0] in promptTools;
    assert resourceTools != [] ==> resourceTools[0] in resourceTools;
  }

  /** The message names the servers that were asked. */
  lemma ServersNamed(unavailable: seq<string>, servers: seq<string>, a: Attribution)
    ensures Contains(RejectionText.Message(unavailable, servers, a),
                     (if a.promptTools == [] && a.resourceTools == [] then " (servers: " else " (allowlisted servers: ")
                     + (if servers == [] then "-" else JoinNames(servers)))
  {
    var named := if servers == [] then "-" else JoinNames(servers);
    var prompt, resource := JoinOrDash(a.blockedPromptServers), JoinOrDash(a.blockedResourceServers);
    hide PROMPT_MISSING, RESOURCE_MISSING, TOOLS_MISSING, BOTH_MISSING, REASONS, PROMPT_SERVERS, RESOURCE_SERVERS,
         Contains, JoinNames;
    if a.promptTools != [] && a.resourceTools == [] {
      SingleNames(PROMPT_MISSING, PROMPT_SERVERS, JoinNames(a.promptTools), named, prompt);
    } else if a.promptTools == [] && a.resourceTools != [] {
      SingleNames(RESOURCE_MISSING, RESOURCE_SERVERS, JoinNames(a.resourceTools), named, resource);
    } else if a.promptTools != [] {
      BothNames(JoinNames(a.promptTools), prompt, JoinNames(a.resourceTools), resource, named);
    } else {
      var front := TOOLS_MISSING + (REASONS + JoinNames(unavailable));
      OccursBetween(front, " (servers: " + named, ")");
      assert RejectionText.Message(unavailable, servers, a) == front + ((" (servers: " + named) + ")");
    }
  }

  lemma SingleNames(missing: string, exposing: string, tools: string, allowlisted: string, blocked: string)
    ensures Contains(SingleMessage(missing, exposing, tools, allowlisted, blocked), ALLOWLISTED + allowlisted)
  {
    hide Contains, ALLOWLISTED;
    var rest := "; " + (exposing + (blocked + ")"));
    OccursBetween(missing + (": " + tools), ALLOWLISTED + allowlisted, rest);
    assert SingleMessage(missing, exposing, tools, allowlisted, blocked)
        == (missing + (": " + tools)) + ((ALLOWLISTED + allowlisted) + rest);
  }

  lemma BothNames(prompts: string, promptServers: string, resources: string, resourceServers: string,
                  allowlisted: string)
    ensures Contains(BothMessage(prompts, promptServers, resources, resourceServers, allowlisted),
                     ALLOWLISTED + allowlisted)
  {
    hide Contains, ALLOWLISTED, BOTH_MISSING, PROMPTS, RESOURCES, PROMPT_SERVERS, RESOURCE_SERVERS;
    var tail := ALLOWLISTED + (allowlisted + ")");
    var front := BOTH_MISSING + (": " + (PROMPTS + (prompts + (" (" + (PROMPT_SERVERS + (promptServers + (
      "); " + (RESOURCES + (resources + (" (" + (RESOURCE_SERVERS + (resourceServers + ")"))))))))))));
    OccursBetween(front, ALLOWLISTED + allowlisted, ")");
    assert BothMessage(prompts, promptServers, resources, resourceServers, allowlisted) == front + tail;
    assert tail == (ALLOWLISTED + allowlisted) + ")";
  }
}
