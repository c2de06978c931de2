# Dataverse MCP setup: registering a server in `mcp-config.json`

This project models the in-memory core of the two versions of the Dataverse
MCP setup script, `mcp_setup.py`:

- the unified script, `plugins/dataverse-mcp-setup/skills/dataverse-mcp-setup/mcp_setup.py`,
  registers one server, always named `Dataverse`, with the Claude Code CLI,
  with GitHub Copilot, or with both;
- the Copilot-only script, `plugins/dataverse/skills/mcp-setup/mcp_setup.py`,
  registers one server per organisation, named `DataverseMcp<org id>`.

Both scripts share the same code for building the endpoint URL, upserting one
server entry into the parsed Copilot configuration document, reading the
registered URLs back, and filtering the environments returned by the Power
Apps API. That code is modelled once:

| module | file | what it holds |
|---|---|---|
| `Wrappers` | `wrappers.dfy` | `Option` (None is a raised Python exception) |
| `JsonValue` | `json_value.dfy` | JSON values; an object is a `map<string, Json>`; `dict.get` |
| `Text` | `text.dfy` | `startswith`, `in`, `replace(p, "")`, `rstrip`, `split(sep)[0]`, `lower()`, `\S+` |
| `Ordering` | `ordering.dfy` | Python's string order and `sorted()` of a set |
| `Endpoint` | `endpoint.dfy` | the MCP endpoint URL |
| `CopilotConfig` | `copilot_config.dfy` | `configure_copilot`'s upsert and write; the reader in `get_configured_servers` |
| `Environments` | `environments.dfy` | the filter loop of `list_environments` |
| `CopilotSetup` | `copilot_setup.dfy` | the Copilot-only script: derived names, `configure`, `get_configured_servers` |
| `UnifiedSetup` | `unified_setup.dfy` | the unified script: `configure_claude`, `configure`'s tool dispatch, the Claude listing scrape |

The configuration file is an abstract value: missing, unparseable,
unreadable for another reason, or a parsed document. The file system's
answers (`mkdir`, whether the write completes) are the inputs `Io`. The
`claude` subprocesses are their outcomes: whether `claude mcp add` succeeds
and what it prints, and what `claude mcp list` prints. Operations that
change the file return the new file value.

The model follows the code in four places where a reader might expect
otherwise:

- a trailing `/` on the organisation URL is kept (`https://x/` gives `https://x//api/mcp`);
- a corrupt configuration file is not skipped: it is treated as `{}` and overwritten;
- the write truncates the file in place and is buffered, so a failure before every byte of the document has reached the file (during the dump, or when the final newline or the close flushes the buffer) leaves an unparseable file, and only a failure once the whole document is on disk leaves the new document although `configure_copilot` raised; for a small file the buffer usually reaches the disk only at the close;
- with both tools requested there is no separate exit code for partial failure.

## Model

Small definitions that name one source expression and that the rows below
rely on carry no row of their own: `Environments.IsDataverse` (the
`databaseType` test, `properties` being an object), `Environments.Properties`,
`LinkedMetadata` and `RawInstanceUrl` (the `get` calls of the filter),
`UnifiedSetup.NestedSession` (the two `in error_output.lower()` tests),
`UnifiedSetup.CleanToken` (`rstrip(".,;)\"'")`), `UnifiedSetup.ClaudeUrlSet`
(the set of cleaned matches), `UnifiedSetup.ClaudeStep` (which outcome the
Claude half of `configure` sees), `CopilotConfig.Entry`, `Upsertable`,
`OldServers`, `ReachesWrite`, `CopilotSucceeds`, `ReadableEntry`,
`AllReadable` and `Readable`. Proof steps carry no row
either: `Text.KeptFirst`, `Text.NoMatchBeforeSeparator`, `Text.ConsAppend`,
`Environments.AppendStep`, `UnifiedSetup.NoMatchAtFront`,
`UnifiedSetup.RunMatchAtFront`, `UnifiedSetup.RunMatchShift` and
`UnifiedSetup.PrefixRunHasNoSpace`; so does the
predicate `UnifiedSetup.HttpsAt` (an `https://` with a character after it
starts at a given index).

| member | source | states |
|---|---|---|
| `Endpoint.McpUrl` | plugins/dataverse-mcp-setup/skills/dataverse-mcp-setup/mcp_setup.py:377-380 | the organisation URL is kept verbatim as the prefix, followed by `/api/mcp_preview` when the endpoint type is `preview` and `/api/mcp` otherwise |
| `Endpoint.McpUrlShape` | plugins/dataverse-mcp-setup/skills/dataverse-mcp-setup/mcp_setup.py:377-380 | the URL starts with the organisation URL and ends in `/api/mcp_preview` exactly when the endpoint type is `preview`, in `/api/mcp` exactly when it is not; it never ends in `/` |
| `Endpoint.McpUrlInjective` | plugins/dataverse/skills/mcp-setup/mcp_setup.py:271-274 | the URL determines the organisation URL and whether the preview endpoint was chosen |
| `Endpoint.TrailingSlashKept` | plugins/dataverse-mcp-setup/skills/dataverse-mcp-setup/mcp_setup.py:377-380 | no normalisation: a trailing slash on the organisation URL stays in the endpoint URL |
| `Text.RemoveAll` | plugins/dataverse/skills/mcp-setup/mcp_setup.py:57 | `replace(pat, "")`: never longer than the input, and the identity on text that does not contain the pattern; that every occurrence goes, scanning left to right, is stated by `RemoveAllLeading` and `RemoveAllBeforeSeparator` |
| `Text.RemoveAllLeading` | plugins/dataverse/skills/mcp-setup/mcp_setup.py:57 | every occurrence is removed, scanning left to right: an occurrence at the front goes and the scan resumes after it |
| `Text.RStrip` | plugins/dataverse/skills/mcp-setup/mcp_setup.py:57 | `rstrip`: the result is a prefix, does not end in a stripped character, and only stripped characters were removed |
| `Text.BeforeFirst` | plugins/dataverse/skills/mcp-setup/mcp_setup.py:60 | `split(".")[0]`: a prefix holding no separator, followed by the separator when shorter than the input |
| `Text.Lower` | plugins/dataverse-mcp-setup/skills/dataverse-mcp-setup/mcp_setup.py:306-307 | `lower()`: same length, every character case-folded |
| `Text.NonSpaceRun` | plugins/dataverse-mcp-setup/skills/dataverse-mcp-setup/mcp_setup.py:211 | the greedy `\S*` run: whitespace-free and stopped only by whitespace or the end |
| `Ordering.Less` | plugins/dataverse/skills/mcp-setup/mcp_setup.py:218 | the string order `sorted` uses is irreflexive: a string is never below itself |
| `Ordering.LessTotal` | plugins/dataverse/skills/mcp-setup/mcp_setup.py:218 | Python's string order relates any two distinct strings |
| `Ordering.LessTransitive` | plugins/dataverse/skills/mcp-setup/mcp_setup.py:218 | Python's string order is transitive |
| `Ordering.SortStrings` | plugins/dataverse/skills/mcp-setup/mcp_setup.py:218 | `sorted(urls)`: strictly increasing, no duplicates, exactly the set's elements |
| `Ordering.SortedListingUnique` | plugins/dataverse/skills/mcp-setup/mcp_setup.py:218 | there is only one sorted duplicate-free listing of a set, so the printed listing is determined |
| `CopilotConfig.Load` | plugins/dataverse-mcp-setup/skills/dataverse-mcp-setup/mcp_setup.py:249-254 | an unreadable file raises; a missing or unparseable file loads as `{}`; a parsed file as its document |
| `CopilotConfig.ServersKey` | plugins/dataverse/skills/mcp-setup/mcp_setup.py:243 | `servers` exactly when the document already holds it, otherwise `mcpServers` |
| `CopilotConfig.Upsert` | plugins/dataverse/skills/mcp-setup/mcp_setup.py:242-251 | fails exactly where Python raises a TypeError; otherwise the key is `servers` if present, else `mcpServers`, created if absent; the named entry becomes exactly `{"type": "http", "url": url}`, and every other top-level member and every other entry is unchanged |
| `CopilotConfig.UpsertedFromUnique` | plugins/dataverse/skills/mcp-setup/mcp_setup.py:242-251 | the upsert's description determines the resulting document |
| `CopilotConfig.UpsertLastWins` | plugins/dataverse/skills/mcp-setup/mcp_setup.py:248-251 | upserting twice under one name equals upserting only the second URL: the old entry is replaced, not merged |
| `CopilotConfig.UpsertIdempotent` | plugins/dataverse-mcp-setup/skills/dataverse-mcp-setup/mcp_setup.py:256-265 | upserting the same entry twice equals upserting it once |
| `CopilotConfig.UpsertKeepsOtherName` | plugins/dataverse/skills/mcp-setup/mcp_setup.py:248-251 | an upsert under another name keeps the first entry beside the second |
| `CopilotConfig.UpsertIntoFreshFile` | plugins/dataverse-mcp-setup/skills/dataverse-mcp-setup/mcp_setup.py:250-265 | a missing or unparseable file yields `{"mcpServers": {name: {"type": "http", "url": url}}}` |
| `CopilotConfig.CorruptFileOverwritten` | plugins/dataverse-mcp-setup/skills/dataverse-mcp-setup/mcp_setup.py:250-270 | a corrupt file is replaced by the document holding only the new entry |
| `CopilotConfig.ConfigureCopilotIdempotent` | plugins/dataverse/skills/mcp-setup/mcp_setup.py:233-256 | after a successful run, running again succeeds and leaves the file as it is |
| `CopilotConfig.FileAfter` | plugins/dataverse-mcp-setup/skills/dataverse-mcp-setup/mcp_setup.py:266-270 | the file after the run: the upserted document when every byte of it reaches the file (even if the final newline or the close then raises), the old file when the run stops before truncating, an unparseable file when a write or flush raises before the whole document is on disk |
| `CopilotConfig.ConfigureCopilot` | plugins/dataverse/skills/mcp-setup/mcp_setup.py:222-256 | raises exactly when mkdir fails, the file cannot be read, the document is not upsertable or the write fails; the new file is the upserted document, unchanged, or truncated |
| `CopilotConfig.ReadServers` | plugins/dataverse/skills/mcp-setup/mcp_setup.py:210 | `mcpServers` is read in preference to `servers`; `{}` when neither is present |
| `CopilotConfig.ServerUrl` | plugins/dataverse/skills/mcp-setup/mcp_setup.py:212 | the entry's `url` with all trailing `/` removed, `""` when it has none; the result never ends in `/` |
| `CopilotConfig.UrlsAmong` | plugins/dataverse/skills/mcp-setup/mcp_setup.py:211-214 | every collected URL starts with `https://` and does not end in `/` |
| `CopilotConfig.StoredUrls` | plugins/dataverse/skills/mcp-setup/mcp_setup.py:205-216 | the reader ends the run exactly for an unreadable file or a document it cannot walk; collected URLs start with `https://` and have no trailing `/` |
| `CopilotConfig.ReadStoredUrls` | plugins/dataverse/skills/mcp-setup/mcp_setup.py:205-216 | the loop over `servers.values()` collects exactly `StoredUrls` |
| `CopilotConfig.UpsertReadBack` | plugins/dataverse-mcp-setup/skills/dataverse-mcp-setup/mcp_setup.py:224-265 | round trip: without both keys, the reader returns the old URLs of the other entries plus the URL just upserted |
| `CopilotConfig.UrlsAmongAfterStore` | plugins/dataverse-mcp-setup/skills/dataverse-mcp-setup/mcp_setup.py:225-229 | storing a well-formed URL under a name: the URLs read are those of the other names plus the new one |
| `CopilotConfig.BothKeysReaderUnchanged` | plugins/dataverse-mcp-setup/skills/dataverse-mcp-setup/mcp_setup.py:225-265 | with both keys present the writer uses `servers` and the reader `mcpServers`: the upsert does not change what the reader returns |
| `CopilotConfig.BothKeysHideTheEntry` | plugins/dataverse-mcp-setup/skills/dataverse-mcp-setup/mcp_setup.py:225-257 | an instance: into `{"servers": {}, "mcpServers": {}}` the URL is written but not read back |
| `Environments.Visit` | plugins/dataverse-mcp-setup/skills/dataverse-mcp-setup/mcp_setup.py:163-174 | raises exactly for a non-object entry or properties, or, for a Dataverse entry, non-object linked metadata or a non-string instance URL; entries of other types are skipped; a Dataverse entry is listed exactly when its instance URL minus trailing `/` is non-empty, with that URL and its display name or `(unnamed)` |
| `Environments.DataverseEntryListed` | plugins/dataverse-mcp-setup/skills/dataverse-mcp-setup/mcp_setup.py:164-174 | a Dataverse entry whose instance URL holds a character other than `/` is listed, with that URL stripped of trailing slashes and its display name or `(unnamed)` |
| `Environments.Filtered` | plugins/dataverse/skills/mcp-setup/mcp_setup.py:169-182 | raises exactly when some entry does; lists exactly the kept environments, each with a non-empty URL not ending in `/` |
| `Environments.FilteredAppend` | plugins/dataverse/skills/mcp-setup/mcp_setup.py:169-182 | input order is kept: filtering a concatenation concatenates the results |
| `Environments.FilteredSnoc` | plugins/dataverse/skills/mcp-setup/mcp_setup.py:169-182 | one more item: the loop raises if it raised before or the item raises, and otherwise appends what the item contributes |
| `Environments.FilteredSingle` | plugins/dataverse-mcp-setup/skills/dataverse-mcp-setup/mcp_setup.py:162-174 | one entry is listed exactly when it is kept |
| `Environments.Iterated` | plugins/dataverse-mcp-setup/skills/dataverse-mcp-setup/mcp_setup.py:162 | `for e in value`: a list gives its items, an empty object or string nothing; anything else raises |
| `Environments.EnvironmentsIn` | plugins/dataverse-mcp-setup/skills/dataverse-mcp-setup/mcp_setup.py:161-174 | a response without `value` lists nothing; for a list, it raises exactly when some entry does and lists every kept entry; every listed URL is non-empty and does not end in `/` |
| `Environments.FilterEnvironments` | plugins/dataverse-mcp-setup/skills/dataverse-mcp-setup/mcp_setup.py:161-174 | the loop over `data.get("value", [])` computes the filtered list |
| `Environments.ListEnvironments` | plugins/dataverse-mcp-setup/skills/dataverse-mcp-setup/mcp_setup.py:176-184 | exit 0 with the environments exactly when at least one is found, exit 1 otherwise |
| `CopilotSetup.ExtractOrgName` | plugins/dataverse/skills/mcp-setup/mcp_setup.py:46-62 | the organisation identifier never contains `.` |
| `CopilotSetup.ExtractOrgNameOfHost` | plugins/dataverse/skills/mcp-setup/mcp_setup.py:46-62 | `https://<org>.<rest>` gives `<org>` when `<org>` holds no dot and no scheme |
| `CopilotSetup.ExtractOrgNameRepeatedScheme` | plugins/dataverse/skills/mcp-setup/mcp_setup.py:57-60 | every `https://` is removed, so a repeated scheme gives the same identifier |
| `CopilotSetup.ServerName` | plugins/dataverse/skills/mcp-setup/mcp_setup.py:65-76 | `DataverseMcp` followed by the organisation identifier, which holds no dot |
| `CopilotSetup.ServerNameInjective` | plugins/dataverse/skills/mcp-setup/mcp_setup.py:65-76 | two URLs get the same server name exactly when they have the same organisation identifier |
| `CopilotSetup.ReconfigureSameOrg` | plugins/dataverse/skills/mcp-setup/mcp_setup.py:271-277 | configuring the same organisation again, with either endpoint type, leaves one entry holding the latest URL |
| `CopilotSetup.TwoOrgsKeepBothEntries` | plugins/dataverse/skills/mcp-setup/mcp_setup.py:271-277 | configuring two organisations with different identifiers keeps both entries |
| `CopilotSetup.HttpsEndpointReported` | plugins/dataverse/skills/mcp-setup/mcp_setup.py:212-213 | an https organisation's endpoint URL passes the reader's filter unchanged |
| `CopilotSetup.ConfiguredUrlReadBack` | plugins/dataverse/skills/mcp-setup/mcp_setup.py:210-251 | after configuring an https organisation into a document without both keys, `get-configured` reports its URL |
| `CopilotSetup.Configure` | plugins/dataverse/skills/mcp-setup/mcp_setup.py:259-294 | exit 0 exactly when the upsert does not raise; the name depends only on the organisation URL |
| `CopilotSetup.GetConfigured` | plugins/dataverse/skills/mcp-setup/mcp_setup.py:201-219 | sorted, duplicate-free, exactly the stored URLs, each starting with `https://` without a trailing `/`; `[]` for a missing or unparseable file |
| `UnifiedSetup.ConfigureCopilot` | plugins/dataverse-mcp-setup/skills/dataverse-mcp-setup/mcp_setup.py:237-270 | the shared upsert under the fixed name `Dataverse` |
| `UnifiedSetup.OneDataverseEntry` | plugins/dataverse-mcp-setup/skills/dataverse-mcp-setup/mcp_setup.py:262-265 | configuring any organisation after another leaves only the latest `Dataverse` entry |
| `UnifiedSetup.NestedSessionIsAlreadyRunning` | plugins/dataverse-mcp-setup/skills/dataverse-mcp-setup/mcp_setup.py:306-307 | the first needle contains capitals and never matches lower-cased output; only `already running` decides |
| `UnifiedSetup.ConfigureClaude` | plugins/dataverse-mcp-setup/skills/dataverse-mcp-setup/mcp_setup.py:273-315 | success exactly when `claude mcp add` succeeds; the error is re-raised exactly when the output shows no nested session; the manual path returns the manual command |
| `UnifiedSetup.ManualClaudeCommand` | plugins/dataverse-mcp-setup/skills/dataverse-mcp-setup/mcp_setup.py:309-312 | the command is the fixed `claude mcp add --scope user "Dataverse" -t http "` head, the endpoint URL, and the `--client-id` tail |
| `UnifiedSetup.ManualClaudeCommandInjective` | plugins/dataverse-mcp-setup/skills/dataverse-mcp-setup/mcp_setup.py:309-312 | different endpoint URLs give different manual commands |
| `UnifiedSetup.ManualPathCondition` | plugins/dataverse-mcp-setup/skills/dataverse-mcp-setup/mcp_setup.py:296-315 | the manual command is returned exactly when `claude mcp add` fails with `already running` in its lower-cased output |
| `UnifiedSetup.ManualMessage` | plugins/dataverse-mcp-setup/skills/dataverse-mcp-setup/mcp_setup.py:402-406 | the fixed explanation, then the command, then a newline |
| `UnifiedSetup.ClaudePhase` | plugins/dataverse-mcp-setup/skills/dataverse-mcp-setup/mcp_setup.py:389-413 | Claude alone: exit 1 when the CLI is missing or the add fails, exit 0 on the manual path; otherwise what is added to `configured_for` and `manual_commands` |
| `UnifiedSetup.CopilotPhase` | plugins/dataverse-mcp-setup/skills/dataverse-mcp-setup/mcp_setup.py:416-423 | `GitHub Copilot` is added exactly when the upsert succeeds; a raised upsert exits 1 only for Copilot alone |
| `UnifiedSetup.Configure` | plugins/dataverse-mcp-setup/skills/dataverse-mcp-setup/mcp_setup.py:364-445 | exit codes per tool (Claude: 1 iff missing or failed; Copilot: 1 iff the upsert raises; both: 1 iff nothing configured and no manual command), the exact `configured_for` and `manual_commands`, and the file afterwards |
| `UnifiedSetup.BothExitCode` | plugins/dataverse-mcp-setup/skills/dataverse-mcp-setup/mcp_setup.py:425-427 | with both tools, the run fails exactly when Copilot raised and Claude was missing or failed without the nested-session message |
| `UnifiedSetup.HttpsTokens` | plugins/dataverse-mcp-setup/skills/dataverse-mcp-setup/mcp_setup.py:211 | every `https://\S+` match starts with `https://`, has a character after it and holds no whitespace |
| `UnifiedSetup.ShiftDelimited` | plugins/dataverse-mcp-setup/skills/dataverse-mcp-setup/mcp_setup.py:211 | an occurrence ended by whitespace in a suffix of the listing is one in the whole listing |
| `UnifiedSetup.HttpsTokensDelimited` | plugins/dataverse-mcp-setup/skills/dataverse-mcp-setup/mcp_setup.py:211 | every match occurs in the listing and runs up to whitespace or the end of it: `\S+` never stops short of its run |
| `UnifiedSetup.ScanKeepsDelimitedRest` | plugins/dataverse-mcp-setup/skills/dataverse-mcp-setup/mcp_setup.py:211 | scanning across text that ends in whitespace never consumes what follows: every match of the rest is still a match |
| `UnifiedSetup.MatchAtStart` | plugins/dataverse-mcp-setup/skills/dataverse-mcp-setup/mcp_setup.py:211 | a listing that begins with `https://` + a whitespace-free run, then whitespace or its end, matches exactly that run |
| `UnifiedSetup.TokenFound` | plugins/dataverse-mcp-setup/skills/dataverse-mcp-setup/mcp_setup.py:211 | every whitespace-delimited `https://` + run in the listing is a match |
| `UnifiedSetup.SkipSpace` | plugins/dataverse-mcp-setup/skills/dataverse-mcp-setup/mcp_setup.py:211 | a whitespace character never starts a match: the scan of the rest is unchanged |
| `UnifiedSetup.RunNoMatch` | plugins/dataverse-mcp-setup/skills/dataverse-mcp-setup/mcp_setup.py:211 | a whitespace-free run holding no `https://` (with a character after it), ended by whitespace or the end, contributes no match |
| `UnifiedSetup.RunMatch` | plugins/dataverse-mcp-setup/skills/dataverse-mcp-setup/mcp_setup.py:211 | a whitespace-free run, ended by whitespace or the end, contributes exactly one match, from its first `https://` to the end of the run; the scan resumes after the run, so a later `https://` in the same run is not reported |
| `UnifiedSetup.ClaudeUrlFound` | plugins/dataverse-mcp-setup/skills/dataverse-mcp-setup/mcp_setup.py:211-213 | every whitespace-delimited `https://` URL in the listing is reported, cleaned of trailing `.,;)"'` |
| `UnifiedSetup.ClaudeUrlsWellFormed` | plugins/dataverse-mcp-setup/skills/dataverse-mcp-setup/mcp_setup.py:211-213 | every scraped URL starts with `https://`, holds no whitespace and does not end in any of `.,;)"'` |
| `UnifiedSetup.ScrapeClaudeUrls` | plugins/dataverse-mcp-setup/skills/dataverse-mcp-setup/mcp_setup.py:210-213 | the loop over the matches collects exactly the cleaned matches |
| `UnifiedSetup.GetConfigured` | plugins/dataverse-mcp-setup/skills/dataverse-mcp-setup/mcp_setup.py:187-234 | sorted and duplicate-free; exactly the Claude URLs (when requested and the listing succeeded) together with the stored URLs (when requested); every URL starts with `https://` |
| `UnifiedSetup.ConfiguredUrlReadBack` | plugins/dataverse-mcp-setup/skills/dataverse-mcp-setup/mcp_setup.py:222-265 | round trip under the name `Dataverse`: the configured https URL is read back |

## Left out

- Subprocesses (`az account show`, `az login`, `az account get-access-token`, `claude mcp add`, `claude mcp list`): only their outcomes are inputs.
- UnifiedSetup.Configure: an error of `claude mcp add` other than a non-zero exit (the process cannot be started) propagates out of `configure` in the script; the model has no such outcome.
- UnifiedSetup.GetConfigured: an error of `claude mcp list` other than a non-zero exit, a missing executable or a timeout propagates in the script; the model has no such outcome.
- The Power Apps API request (`urlopen`) and token retrieval: the filter starts from the parsed response, and every failure before it is one `DiscoveryFailed` outcome with exit 1.
- File-system work: `get_copilot_config_path` (it depends on the OS and the environment), `open`, `mkdir`, and the text layout of `json.dump`. A truncated file is modelled as unparseable.
- JSON key order and the text of number literals.
- Strings are Dafny strings, whose characters exclude the surrogate code points: a document holding a lone surrogate escape such as `"\ud800"` cannot be represented.
- Text.Lower: folds only ASCII letters, while Python's `lower()` folds every cased character; the nested-session needles are ASCII, but non-ASCII output is compared unfolded.
- `argparse`, `main`, the `print` output and `detect_tools`: command-line plumbing.
- `print_manual_instructions`: it is never called, and it refers to an undefined `OAUTH_CLIENT_ID`.
- The `shutil.which` preamble of the Copilot-only script's `list_environments`: `shutil` is not imported there, so that preamble raises before the filter runs. Only the filter loop is modelled.
- The `MCP_SETUP_USETIP` endpoint switch: it reads an environment variable to choose a constant.
- Name-collision detection, skipping a corrupt file, atomic writes and a partial-failure exit status: the code implements none of these.
