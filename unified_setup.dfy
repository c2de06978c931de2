/**
 * The unified setup script (plugins/dataverse-mcp-setup): registers one
 * server, always named "Dataverse", with the Claude Code CLI, with GitHub
 * Copilot's configuration file, or with both.
 */
module UnifiedSetup {
  import opened Wrappers
  import opened JsonValue
  import opened Text
  import opened Ordering
  import opened Endpoint
  import CopilotConfig

  const ServerName := "Dataverse"
  const ClaudeOAuthClientId := "f4ffe97c-20c7-4620-9ad6-b3e41f878dd0"

  /** The `--tool` choice. */
  datatype Tool = Claude | Copilot | Both

  /** `configure_copilot(mcp_url)`: the shared upsert, under the fixed name. */
  method ConfigureCopilot(file: CopilotConfig.ConfigFile, mcpUrl: string, io: CopilotConfig.Io)
    returns (raised: bool, file': CopilotConfig.ConfigFile)
    ensures raised == !CopilotConfig.CopilotSucceeds(file, io)
    ensures file' == CopilotConfig.FileAfter(file, ServerName, mcpUrl, io)
  {
    raised, file' := CopilotConfig.ConfigureCopilot(file, ServerName, mcpUrl, io);
  }

  /**
   * With a fixed name, configuring a second organisation (or the same one
   * with the other endpoint type) replaces the one "Dataverse" entry.
   */
  lemma OneDataverseEntry(config: Json, orgUrl1: string, endpointType1: string, orgUrl2: string, endpointType2: string)
    requires CopilotConfig.Upsertable(config)
    ensures CopilotConfig.Upsertable(CopilotConfig.Upsert(config, ServerName, McpUrl(orgUrl1, endpointType1)).value)
    ensures CopilotConfig.Upsert(CopilotConfig.Upsert(config, ServerName, McpUrl(orgUrl1, endpointType1)).value,
                                 ServerName, McpUrl(orgUrl2, endpointType2))
         == CopilotConfig.Upsert(config, ServerName, McpUrl(orgUrl2, endpointType2))
  {
    CopilotConfig.UpsertLastWins(config, ServerName, McpUrl(orgUrl1, endpointType1), McpUrl(orgUrl2, endpointType2));
  }

  // ---------------------------------------------------------------------------
  // Claude Code CLI

  /** How `claude mcp add` ends: success, or CalledProcessError with stderr + stdout. */
  datatype ClaudeAdd = AddSucceeded | AddFailed(output: string)

  /** What `configure_claude` reports: success, a manual command, or the re-raised error. */
  datatype ClaudeOutcome = ClaudeConfigured | ClaudeNeedsManual(command: string) | ClaudeFailed

  const LaunchedInsideNeedle := "cannot be launched inside another Claude Code session"
  const AlreadyRunningNeedle := "already running"

  /** The nested-session test, applied to the lower-cased output. */
  predicate NestedSession(output: string)
  {
    Contains(Lower(output), LaunchedInsideNeedle) || Contains(Lower(output), AlreadyRunningNeedle)
  }

  /**
   * The first needle holds capitals, so it never occurs in lower-cased text:
   * only "already running" decides the test.
   */
  lemma NestedSessionIsAlreadyRunning(output: string)
    ensures NestedSession(output) <==> Contains(Lower(output), AlreadyRunningNeedle)
  {
    LowerHasNoCapital(output, 'C');
    MissingCharNotContained(Lower(output), LaunchedInsideNeedle, 'C');
  }

  /** The command the user is asked to run outside the Claude session. */
  function ManualClaudeCommand(mcpUrl: string): (command: string)
    ensures |command| == |ClaudeAddHead| + |mcpUrl| + |ClientIdTail|
    ensures StartsWith(command, ClaudeAddHead) && EndsWith(command, ClientIdTail)
    ensures command[|ClaudeAddHead|..|command| - |ClientIdTail|] == mcpUrl
  {
    ClaudeAddHead + mcpUrl + ClientIdTail
  }

  /** `claude mcp add --scope user "Dataverse" -t http "`, the part before the URL. */
  const ClaudeAddHead := "claude mcp add --scope user \"" + ServerName + "\" -t http \""
  /** `" --client-id "<client id>"`, the part after the URL. */
  const ClientIdTail := "\" --client-id \"" + ClaudeOAuthClientId + "\""

  /** The command names the endpoint: different URLs give different commands. */
  lemma ManualClaudeCommandInjective(mcpUrl1: string, mcpUrl2: string)
    requires ManualClaudeCommand(mcpUrl1) == ManualClaudeCommand(mcpUrl2)
    ensures mcpUrl1 == mcpUrl2
  {
  }

  /** `configure_claude(mcp_url)` on the outcome of `claude mcp add`. */
  function ConfigureClaude(mcpUrl: string, add: ClaudeAdd): (r: ClaudeOutcome)
    ensures r.ClaudeConfigured? <==> add.AddSucceeded?
    ensures r.ClaudeFailed? <==> add.AddFailed? && !NestedSession(add.output)
    ensures r.ClaudeNeedsManual? ==> r.command == ManualClaudeCommand(mcpUrl)
  {
    match add
    case AddSucceeded => ClaudeConfigured
    case AddFailed(output) =>
      if NestedSession(output) then ClaudeNeedsManual(ManualClaudeCommand(mcpUrl)) else ClaudeFailed
  }

  /** The manual path is taken exactly when the lower-cased output says "already running". */
  lemma ManualPathCondition(mcpUrl: string, add: ClaudeAdd)
    ensures ConfigureClaude(mcpUrl, add).ClaudeNeedsManual?
            <==> add.AddFailed? && Contains(Lower(add.output), AlreadyRunningNeedle)
    ensures ConfigureClaude(mcpUrl, add).ClaudeNeedsManual? ==>
              ConfigureClaude(mcpUrl, add).command == ManualClaudeCommand(mcpUrl)
  {
    if add.AddFailed? {
      NestedSessionIsAlreadyRunning(add.output);
    }
  }

  /** The message added to `manual_commands` for the nested-session case. */
  function ManualMessage(command: string): (message: string)
    ensures StartsWith(message, ManualPreamble) && message[|message| - 1] == '\n'
    ensures message[|ManualPreamble|..|message| - 1] == command
  {
    ManualPreamble + command + "\n"
  }

  const ManualPreamble := "\nClaude Code cannot be configured from within a Claude session.\n"
                          + "Please exit this Claude session and run the following command:\n\n  "

  const ClaudeLabel := "Claude Code CLI"
  const CopilotLabel := "GitHub Copilot"

  /** The outcome of the Claude step, for a tool selection that includes Claude. */
  function ClaudeStep(tool: Tool, hasClaude: bool, mcpUrl: string, add: ClaudeAdd): Option<ClaudeOutcome>
  {
    if tool == Copilot || !hasClaude then None else Some(ConfigureClaude(mcpUrl, add))
  }

  /**
   * The Claude half of `configure`: what it adds to `configured_for` and
   * `manual_commands`, and the exit code when it ends the run early (only
   * when Claude alone was requested).
   */
  method ClaudePhase(tool: Tool, hasClaude: bool, mcpUrl: string, add: ClaudeAdd)
    returns (earlyExit: Option<int>, configuredFor: seq<string>, manualCommands: seq<string>)
    ensures var claude := ClaudeStep(tool, hasClaude, mcpUrl, add);
            && configuredFor == (if claude == Some(ClaudeConfigured) then [ClaudeLabel] else [])
            && manualCommands == (if claude.Some? && claude.value.ClaudeNeedsManual?
                                  then [ManualMessage(claude.value.command)] else [])
    ensures earlyExit.Some? ==> tool == Claude
    ensures tool == Claude ==>
              earlyExit == if !hasClaude || ConfigureClaude(mcpUrl, add) == ClaudeFailed then Some(1)
                           else if ConfigureClaude(mcpUrl, add).ClaudeNeedsManual? then Some(0)
                           else None
  {
    configuredFor, manualCommands := [], [];
    earlyExit := None;
    if tool == Claude || tool == Both {
      if !hasClaude {
        if tool == Claude {
          return Some(1), configuredFor, manualCommands;
        }
      } else {
        var outcome := ConfigureClaude(mcpUrl, add);
        match outcome {
          case ClaudeConfigured =>
            configuredFor := configuredFor + [ClaudeLabel];
          case ClaudeNeedsManual(command) =>
            manualCommands := manualCommands + [ManualMessage(command)];
            if tool == Claude {
              return Some(0), configuredFor, manualCommands;
            }
          case ClaudeFailed =>
            if tool == Claude {
              return Some(1), configuredFor, manualCommands;
            }
        }
      }
    }
  }

  /**
   * The Copilot half of `configure`: "GitHub Copilot" is added when the
   * upsert succeeds; a raised upsert ends the run with 1 only when Copilot
   * alone was requested.
   */
  method CopilotPhase(tool: Tool, mcpUrl: string, file: CopilotConfig.ConfigFile, io: CopilotConfig.Io)
    returns (earlyExit: Option<int>, configuredFor: seq<string>, file': CopilotConfig.ConfigFile)
    ensures configuredFor == (if tool != Claude && CopilotConfig.CopilotSucceeds(file, io) then [CopilotLabel] else [])
    ensures earlyExit == (if tool == Copilot && !CopilotConfig.CopilotSucceeds(file, io) then Some(1) else None)
    ensures file' == if tool == Claude then file else CopilotConfig.FileAfter(file, ServerName, mcpUrl, io)
  {
    configuredFor, file' := [], file;
    earlyExit := None;
    if tool == Copilot || tool == Both {
      var raised;
      raised, file' := ConfigureCopilot(file, mcpUrl, io);
      if !raised {
        configuredFor := configuredFor + [CopilotLabel];
      } else if tool == Copilot {
        earlyExit := Some(1);
      }
    }
  }

  /**
   * `configure(org_url, endpoint_type, tool)`: build the URL, try Claude,
   * then Copilot, collecting `configured_for` and `manual_commands`; the
   * exit code and the Copilot file afterwards.
   */
  method Configure(orgUrl: string, endpointType: string, tool: Tool, hasClaude: bool, add: ClaudeAdd,
                   file: CopilotConfig.ConfigFile, io: CopilotConfig.Io)
    returns (exitCode: int, configuredFor: seq<string>, manualCommands: seq<string>, file': CopilotConfig.ConfigFile)
    ensures exitCode == 0 || exitCode == 1
    ensures var claude := ClaudeStep(tool, hasClaude, McpUrl(orgUrl, endpointType), add);
            && configuredFor == (if claude == Some(ClaudeConfigured) then [ClaudeLabel] else [])
                                + (if tool != Claude && CopilotConfig.CopilotSucceeds(file, io) then [CopilotLabel] else [])
            && manualCommands == (if claude.Some? && claude.value.ClaudeNeedsManual?
                                  then [ManualMessage(claude.value.command)] else [])
    ensures tool == Claude ==> file' == file
    ensures tool != Claude ==> file' == CopilotConfig.FileAfter(file, ServerName, McpUrl(orgUrl, endpointType), io)
    ensures tool == Claude ==>
              (exitCode == 1 <==> !hasClaude || ConfigureClaude(McpUrl(orgUrl, endpointType), add) == ClaudeFailed)
    ensures tool == Copilot ==> (exitCode == 1 <==> !CopilotConfig.CopilotSucceeds(file, io))
    ensures tool == Both ==> (exitCode == 1 <==> configuredFor == [] && manualCommands == [])
  {
    var mcpUrl := McpUrl(orgUrl, endpointType);
    var earlyExit;
    earlyExit, configuredFor, manualCommands := ClaudePhase(tool, hasClaude, mcpUrl, add);
    file' := file;
    if earlyExit.Some? {
      return earlyExit.value, configuredFor, manualCommands, file';
    }

    var copilotExit, copilotAdded;
    copilotExit, copilotAdded, file' := CopilotPhase(tool, mcpUrl, file, io);
    configuredFor := configuredFor + copilotAdded;
    if copilotExit.Some? {
      return copilotExit.value, configuredFor, manualCommands, file';
    }

    if configuredFor == [] && manualCommands == [] {
      return 1, configuredFor, manualCommands, file';
    }
    return 0, configuredFor, manualCommands, file';
  }

  /**
   * With both tools requested the run fails only when nothing at all was
   * done: Claude neither configured nor deferred to a manual command, and
   * the Copilot upsert raised.  A partial failure still exits 0.
   */
  lemma BothExitCode(hasClaude: bool, mcpUrl: string, add: ClaudeAdd, copilotSucceeds: bool)
    ensures var claude := ClaudeStep(Both, hasClaude, mcpUrl, add);
            var configured := (if claude == Some(ClaudeConfigured) then [ClaudeLabel] else [])
                              + (if copilotSucceeds then [CopilotLabel] else []);
            var manual := if claude.Some? && claude.value.ClaudeNeedsManual? then [ManualMessage(claude.value.command)] else [];
            (configured == [] && manual == [])
              <==> !copilotSucceeds && (!hasClaude || (add.AddFailed? && !Contains(Lower(add.output), AlreadyRunningNeedle)))
  {
    ManualPathCondition(mcpUrl, add);
  }

  // ---------------------------------------------------------------------------
  // get-configured

  /** What `claude mcp list` gives: no CLI, a failure that is ignored, or its stdout. */
  datatype ClaudeListing =
    | ClaudeAbsent          // has_claude_cli() is false
    | ListingFailed         // non-zero exit, FileNotFoundError or timeout: ignored
    | Listing(stdout: string)

  const TrailingPunctuation: set<char> := {'.', ',', ';', ')', '"', '\''}

  lemma PrefixHasNoSpace()
    ensures NoSpace(CopilotConfig.HttpsPrefix)
  {
  }

  /** "https://" and the non-space character after it hold no whitespace. */
  lemma PrefixRunHasNoSpace(text: string)
    requires |text| > |CopilotConfig.HttpsPrefix| && StartsWith(text, CopilotConfig.HttpsPrefix)
    requires text[|CopilotConfig.HttpsPrefix|] !in Whitespace
    ensures NoSpace(text[..|CopilotConfig.HttpsPrefix| + 1])
  {
    var p := CopilotConfig.HttpsPrefix;
    var q := text[..|p| + 1];
    PrefixHasNoSpace();
    forall i | 0 <= i < |q|
      ensures q[i] !in Whitespace
    {
      if i < |p| {
        assert q[i] == text[..|p|][i] == p[i];
      }
    }
  }

  /**
   * `re.findall(r"https://\S+", text)`: scanning from the left, each match is
   * "https://" followed by the longest run of non-whitespace (at least one
   * character); the scan resumes after it.
   */
  function HttpsTokens(text: string): (tokens: seq<string>)
    ensures forall t :: t in tokens ==>
              StartsWith(t, CopilotConfig.HttpsPrefix) && |t| > |CopilotConfig.HttpsPrefix| && NoSpace(t)
    decreases |text|
  {
    if |text| <= |CopilotConfig.HttpsPrefix| then []
    else if StartsWith(text, CopilotConfig.HttpsPrefix) && text[|CopilotConfig.HttpsPrefix|] !in Whitespace then
      var n := NonSpaceRun(text);
      PrefixRunHasNoSpace(text);
      NonSpaceRunCovers(text, |CopilotConfig.HttpsPrefix| + 1);
      assert text[..n][..|CopilotConfig.HttpsPrefix|] == text[..|CopilotConfig.HttpsPrefix|];
      [text[..n]] + HttpsTokens(text[n..])
    else HttpsTokens(text[1..])
  }

  /** t occurs in text at i and is followed by whitespace or the end of text. */
  predicate DelimitedAt(text: string, t: string, i: nat)
  {
    i + |t| <= |text| && text[i..i + |t|] == t && (i + |t| == |text| || text[i + |t|] in Whitespace)
  }

  /** A delimited occurrence in a suffix is one in the whole text, shifted by the suffix's start. */
  lemma ShiftDelimited(text: string, k: nat, t: string, j: nat)
    requires k <= |text| && DelimitedAt(text[k..], t, j)
    ensures DelimitedAt(text, t, k + j)
  {
    assert text[k..][j..j + |t|] == text[k + j..k + j + |t|];
    if k + j + |t| < |text| {
      assert text[k..][j + |t|] == text[k + j + |t|];
    }
  }

  /**
   * Every match is a piece of the listing that runs up to whitespace or the
   * end: `\S+` is greedy, so no match stops short of the end of its run.
   */
  lemma {:induction false} HttpsTokensDelimited(text: string)
    ensures forall t :: t in HttpsTokens(text) ==> exists i :: DelimitedAt(text, t, i)
    decreases |text|
  {
    var p := CopilotConfig.HttpsPrefix;
    if |text| <= |p| {
    } else if StartsWith(text, p) && text[|p|] !in Whitespace {
      var n := NonSpaceRun(text);
      HttpsTokensDelimited(text[n..]);
      forall t | t in HttpsTokens(text)
        ensures exists i :: DelimitedAt(text, t, i)
      {
        if t == text[..n] {
          assert text[0..n] == t;
          assert DelimitedAt(text, t, 0);
        } else {
          assert t in HttpsTokens(text[n..]);
          var j :| DelimitedAt(text[n..], t, j);
          ShiftDelimited(text, n, t, j);
        }
      }
    } else {
      HttpsTokensDelimited(text[1..]);
      forall t | t in HttpsTokens(text)
        ensures exists i :: DelimitedAt(text, t, i)
      {
        assert t in HttpsTokens(text[1..]);
        var j :| DelimitedAt(text[1..], t, j);
        ShiftDelimited(text, 1, t, j);
      }
    }
  }


  /**
   * Scanning across a stretch that ends in whitespace never consumes what
   * follows it: every match of the rest is still found.
   */
  lemma {:induction false} ScanKeepsDelimitedRest(a: string, rest: string)
    requires a == [] || a[|a| - 1] in Whitespace
    ensures forall t :: t in HttpsTokens(rest) ==> t in HttpsTokens(a + rest)
    decreases |a|
  {
    var p := CopilotConfig.HttpsPrefix;
    var text := a + rest;
    if a == [] {
      assert text == rest;
    } else if |text| > |p| && StartsWith(text, p) && text[|p|] !in Whitespace {
      var n := NonSpaceRun(text);
      PrefixRunHasNoSpace(text);
      NonSpaceRunCovers(text, |p| + 1);
      assert text[|a| - 1] == a[|a| - 1];
      NonSpaceRunStopsAt(text, |a| - 1);
      assert 0 < n < |a|;
      assert text[n..] == a[n..] + rest;
      ScanKeepsDelimitedRest(a[n..], rest);
    } else if |text| > |p| {
      assert text[1..] == a[1..] + rest;
      ScanKeepsDelimitedRest(a[1..], rest);
    }
  }

  /** "https://" followed by at least one more character starts at j in w. */
  predicate HttpsAt(w: string, j: nat)
  {
    j + |CopilotConfig.HttpsPrefix| < |w| && w[j..j + |CopilotConfig.HttpsPrefix|] == CopilotConfig.HttpsPrefix
  }

  /** A whitespace character never starts a match: the scan steps over it. */
  lemma SkipSpace(s: char, c: string)
    requires s in Whitespace
    ensures HttpsTokens([s] + c) == HttpsTokens(c)
  {
    var p := CopilotConfig.HttpsPrefix;
    var text := [s] + c;
    PrefixHasNoSpace();
    assert text[0] == s && p[0] !in Whitespace;
    if |text| > |p| {
      assert text[..|p|][0] != p[0];
      assert text[1..] == c;
    }
  }

  /**
   * When a whitespace-free w has no "https://" at its front, the scan of w + c
   * (c empty or starting with whitespace) does not match at its front either.
   */
  lemma NoMatchAtFront(w: string, c: string)
    requires NoSpace(w) && !HttpsAt(w, 0)
    requires c == [] || c[0] in Whitespace
    ensures var text := w + c;
            !(|text| > |CopilotConfig.HttpsPrefix| && StartsWith(text, CopilotConfig.HttpsPrefix)
              && text[|CopilotConfig.HttpsPrefix|] !in Whitespace)
  {
    var p := CopilotConfig.HttpsPrefix;
    var text := w + c;
    PrefixHasNoSpace();
    if |w| > |p| {
      assert text[..|p|] == w[..|p|];
    } else if |text| > |p| {
      assert text[|w|] == c[0];
      if |w| < |p| {
        assert text[..|p|][|w|] != p[|w|];
      }
    }
  }

  /**
   * A whitespace-free run without "https://" in it, ended by whitespace or
   * the end of the listing, contributes no match.
   */
  lemma {:induction false} RunNoMatch(w: string, c: string)
    requires NoSpace(w) && forall k: nat :: !HttpsAt(w, k)
    requires c == [] || c[0] in Whitespace
    ensures HttpsTokens(w + c) == HttpsTokens(c)
    decreases |w|
  {
    if w == [] {
      assert w + c == c;
    } else {
      NoMatchAtFront(w, c);
      var text := w + c;
      if |text| > |CopilotConfig.HttpsPrefix| {
        assert text[1..] == w[1..] + c;
        forall k: nat
          ensures !HttpsAt(w[1..], k)
        {
          assert !HttpsAt(w, k + 1);
          var n := |CopilotConfig.HttpsPrefix|;
          if k + n < |w| - 1 {
            assert w[1..][k..k + n] == w[k + 1..k + 1 + n];
          }
        }
        RunNoMatch(w[1..], c);
      }
    }
  }

  /**
   * A whitespace-free run whose first "https://" is at j, ended by whitespace
   * or the end of the listing, contributes exactly one match: everything from
   * j to the end of the run. The scan resumes after the run, so a second
   * "https://" inside it is not reported.
   */
  lemma {:induction false} RunMatch(w: string, j: nat, c: string)
    requires NoSpace(w) && HttpsAt(w, j) && forall k: nat :: k < j ==> !HttpsAt(w, k)
    requires c == [] || c[0] in Whitespace
    ensures HttpsTokens(w + c) == [w[j..]] + HttpsTokens(c)
    decreases j
  {
    if j == 0 {
      RunMatchAtFront(w, c);
      assert w[0..] == w;
    } else {
      NoMatchAtFront(w, c);
      assert (w + c)[1..] == w[1..] + c;
      RunMatchShift(w, j);
      RunMatch(w[1..], j - 1, c);
      assert w[1..][j - 1..] == w[j..];
    }
  }

  /** A whitespace-free run starting with "https://" and a character is matched whole. */
  lemma RunMatchAtFront(w: string, c: string)
    requires NoSpace(w) && HttpsAt(w, 0)
    requires c == [] || c[0] in Whitespace
    ensures HttpsTokens(w + c) == [w] + HttpsTokens(c)
  {
    var p := CopilotConfig.HttpsPrefix;
    var text := w + c;
    assert text[..|p|] == w[..|p|] && text[|p|] == w[|p|];
    assert text[..|w|] == w;
    NonSpaceRunCovers(text, |w|);
    if c != [] {
      assert text[|w|] == c[0];
      NonSpaceRunStopsAt(text, |w|);
    }
    assert NonSpaceRun(text) == |w|;
    assert text[|w|..] == c;
  }

  /** Dropping the first character shifts every "https://" position down by one. */
  lemma RunMatchShift(w: string, j: nat)
    requires j > 0 && HttpsAt(w, j) && forall k: nat :: k < j ==> !HttpsAt(w, k)
    ensures HttpsAt(w[1..], j - 1) && forall k: nat :: k < j - 1 ==> !HttpsAt(w[1..], k)
  {
    var p := CopilotConfig.HttpsPrefix;
    assert w[1..][j - 1..j - 1 + |p|] == w[j..j + |p|];
    forall k: nat | k < j - 1
      ensures !HttpsAt(w[1..], k)
    {
      assert !HttpsAt(w, k + 1);
      assert w[1..][k..k + |p|] == w[k + 1..k + 1 + |p|];
    }
  }

  /** A listing that starts with "https://" + b, then whitespace or its end, matches "https://" + b first. */
  lemma MatchAtStart(b: string, c: string)
    requires b != [] && NoSpace(b)
    requires c == [] || c[0] in Whitespace
    ensures CopilotConfig.HttpsPrefix + b in HttpsTokens(CopilotConfig.HttpsPrefix + b + c)
  {
    var p := CopilotConfig.HttpsPrefix;
    var text := p + b + c;
    PrefixHasNoSpace();
    assert text[..|p|] == p;
    assert text[|p|] == b[0];
    assert text[..|p| + |b|] == p + b;
    NonSpaceRunCovers(text, |p| + |b|);
    if c != [] {
      assert text[|p| + |b|] == c[0];
      NonSpaceRunStopsAt(text, |p| + |b|);
    }
    assert text[..NonSpaceRun(text)] == p + b;
  }

  /**
   * Every whitespace-delimited run "https://" + b is a match: an earlier
   * match ends at the latest at the whitespace before it.
   */
  lemma TokenFound(a: string, b: string, c: string)
    requires a == [] || a[|a| - 1] in Whitespace
    requires b != [] && NoSpace(b)
    requires c == [] || c[0] in Whitespace
    ensures CopilotConfig.HttpsPrefix + b in HttpsTokens(a + CopilotConfig.HttpsPrefix + b + c)
  {
    var p := CopilotConfig.HttpsPrefix;
    assert a + p + b + c == a + (p + b + c);
    MatchAtStart(b, c);
    ScanKeepsDelimitedRest(a, p + b + c);
  }

  /** The Claude listing contributes the cleaned form of every whitespace-delimited `https://` URL in it. */
  lemma ClaudeUrlFound(a: string, b: string, c: string)
    requires a == [] || a[|a| - 1] in Whitespace
    requires b != [] && NoSpace(b)
    requires c == [] || c[0] in Whitespace
    ensures CleanToken(CopilotConfig.HttpsPrefix + b) in ClaudeUrlSet(a + CopilotConfig.HttpsPrefix + b + c)
  {
    TokenFound(a, b, c);
  }

  /** `url.rstrip(".,;)\"'")` */
  function CleanToken(token: string): string
  {
    RStrip(token, TrailingPunctuation)
  }

  /** The URLs the Claude listing contributes. */
  function ClaudeUrlSet(stdout: string): set<string>
  {
    set t | t in HttpsTokens(stdout) :: CleanToken(t)
  }

  /** A contributed URL starts with "https://", holds no whitespace and does not end in `.,;)"'`. */
  lemma ClaudeUrlsWellFormed(stdout: string)
    ensures forall u :: u in ClaudeUrlSet(stdout) ==>
              && StartsWith(u, CopilotConfig.HttpsPrefix) && NoSpace(u)
              && u[|u| - 1] !in TrailingPunctuation
  {
    forall t | t in HttpsTokens(stdout)
      ensures StartsWith(CleanToken(t), CopilotConfig.HttpsPrefix)
    {
      RStripKeepsPrefix(t, CopilotConfig.HttpsPrefix, TrailingPunctuation);
    }
  }

  /** The loop over the matches of the Claude listing, adding each cleaned URL to `urls`. */
  method ScrapeClaudeUrls(stdout: string) returns (urls: set<string>)
    ensures urls == ClaudeUrlSet(stdout)
    ensures forall u :: u in urls ==> StartsWith(u, CopilotConfig.HttpsPrefix) && NoSpace(u)
                                      && u[|u| - 1] !in TrailingPunctuation
  {
    var tokens := HttpsTokens(stdout);
    urls := {};
    for i := 0 to |tokens|
      invariant urls == set t | t in tokens[..i] :: CleanToken(t)
    {
      assert tokens[..i + 1] == tokens[..i] + [tokens[i]];
      urls := urls + {CleanToken(tokens[i])};
    }
    assert tokens[..|tokens|] == tokens;
    ClaudeUrlsWellFormed(stdout);
  }

  /**
   * `get_configured_servers(tool)`: the union of the Claude listing's URLs
   * and the Copilot file's URLs, sorted, each once; None where an uncaught
   * exception ends the run.
   */
  method GetConfigured(tool: Tool, claude: ClaudeListing, file: CopilotConfig.ConfigFile)
    returns (r: Option<seq<string>>)
    ensures r.None? <==> tool != Claude && CopilotConfig.StoredUrls(file).None?
    ensures r.Some? ==> StrictlyIncreasing(r.value)
    ensures r.Some? ==> forall u :: u in r.value <==>
              || (tool != Copilot && claude.Listing? && u in ClaudeUrlSet(claude.stdout))
              || (tool != Claude && u in CopilotConfig.StoredUrls(file).value)
    ensures r.Some? ==> forall u :: u in r.value ==> StartsWith(u, CopilotConfig.HttpsPrefix)
  {
    var urls: set<string> := {};
    if (tool == Claude || tool == Both) && claude.Listing? {
      urls := ScrapeClaudeUrls(claude.stdout);
    }
    if tool == Copilot || tool == Both {
      var stored := CopilotConfig.ReadStoredUrls(file);
      if stored.None? {
        return None;
      }
      urls := urls + stored.value;
    }
    var sorted := SortStrings(urls);
    return Some(sorted);
  }

  /**
   * Round trip through Copilot: after "Dataverse" is configured for an https
   * organisation into a document without both keys, `get-configured --tool
   * copilot` reports the endpoint URL.
   */
  lemma ConfiguredUrlReadBack(config: Json, orgUrl: string, endpointType: string)
    requires CopilotConfig.Upsertable(config) && CopilotConfig.Readable(config)
    requires !(CopilotConfig.ServersKeyName in config.fields && CopilotConfig.McpServersKeyName in config.fields)
    requires StartsWith(orgUrl, CopilotConfig.HttpsPrefix)
    ensures var after := CopilotConfig.Parsed(CopilotConfig.Upsert(config, ServerName, McpUrl(orgUrl, endpointType)).value);
            CopilotConfig.StoredUrls(after).Some? && McpUrl(orgUrl, endpointType) in CopilotConfig.StoredUrls(after).value
  {
    McpUrlShape(orgUrl, endpointType);
    var u := McpUrl(orgUrl, endpointType);
    assert u[..|CopilotConfig.HttpsPrefix|] == orgUrl[..|CopilotConfig.HttpsPrefix|];
    CopilotConfig.UpsertReadBack(config, ServerName, u);
  }
}
