/**
 * The Copilot-only setup script (plugins/dataverse/skills/mcp-setup): each
 * organisation gets its own server entry, named after the organisation
 * identifier in its URL.
 */
module CopilotSetup {
  import opened Wrappers
  import opened JsonValue
  import opened Text
  import opened Ordering
  import opened Endpoint
  import opened CopilotConfig

  const ServerNamePrefix := "DataverseMcp"

  /**
   * `extract_org_name`: drop every "https://" and then every "http://",
   * strip trailing slashes, keep what precedes the first dot.
   */
  function ExtractOrgName(orgUrl: string): (org: string)
    ensures '.' !in org
  {
    BeforeFirst(RStrip(RemoveAll(RemoveAll(orgUrl, "https://"), "http://"), {'/'}), '.')
  }

  /** The organisation identifier is the first org of the host name. */
  lemma ExtractOrgNameOfHost(org: string, rest: string)
    requires '.' !in org && !Contains(org, "https://") && !Contains(org, "http://")
    ensures ExtractOrgName("https://" + org + "." + rest) == org
  {
    var v := org + ['.'] + rest;
    assert "https://" + org + "." + rest == "https://" + v;
    RemoveAllLeading("https://", v);
    RemoveAllBeforeSeparator(org, '.', rest, "https://");
    var r1 := RemoveAll(rest, "https://");
    assert RemoveAll(RemoveAll("https://" + v, "https://"), "http://") == RemoveAll(org + ['.'] + r1, "http://");
    RemoveAllBeforeSeparator(org, '.', r1, "http://");
    var r2 := RemoveAll(r1, "http://");
    RStripAfterKept(org, '.', r2, {'/'});
    BeforeFirstOfSeparated(org, '.', RStrip(r2, {'/'}));
  }

  /** Every "https://" goes, not only the first: a repeated scheme gives the same identifier. */
  lemma ExtractOrgNameRepeatedScheme(orgUrl: string)
    ensures ExtractOrgName("https://" + orgUrl) == ExtractOrgName(orgUrl)
  {
    RemoveAllLeading("https://", orgUrl);
  }

  /** `get_server_name`: the prefix followed by the organisation identifier. */
  function ServerName(orgUrl: string): (name: string)
    ensures StartsWith(name, ServerNamePrefix) && name[|ServerNamePrefix|..] == ExtractOrgName(orgUrl)
    ensures '.' !in name[|ServerNamePrefix|..]
  {
    ServerNamePrefix + ExtractOrgName(orgUrl)
  }

  /** Two URLs share a server entry exactly when they share an organisation identifier. */
  lemma ServerNameInjective(orgUrl1: string, orgUrl2: string)
    ensures ServerName(orgUrl1) == ServerName(orgUrl2) <==> ExtractOrgName(orgUrl1) == ExtractOrgName(orgUrl2)
  {
    var n := |ServerNamePrefix|;
    assert ServerName(orgUrl1)[n..] == ExtractOrgName(orgUrl1);
    assert ServerName(orgUrl2)[n..] == ExtractOrgName(orgUrl2);
  }

  /**
   * Configuring the same organisation again, with either endpoint type,
   * replaces its one entry: the document is as if only the latest
   * configuration had been made.
   */
  lemma ReconfigureSameOrg(config: Json, orgUrl1: string, endpointType1: string, orgUrl2: string, endpointType2: string)
    requires Upsertable(config) && ExtractOrgName(orgUrl1) == ExtractOrgName(orgUrl2)
    ensures Upsertable(Upsert(config, ServerName(orgUrl1), McpUrl(orgUrl1, endpointType1)).value)
    ensures Upsert(Upsert(config, ServerName(orgUrl1), McpUrl(orgUrl1, endpointType1)).value,
                   ServerName(orgUrl2), McpUrl(orgUrl2, endpointType2))
         == Upsert(config, ServerName(orgUrl2), McpUrl(orgUrl2, endpointType2))
  {
    UpsertLastWins(config, ServerName(orgUrl1), McpUrl(orgUrl1, endpointType1), McpUrl(orgUrl2, endpointType2));
  }

  /** Configuring a second organisation keeps the first one's entry. */
  lemma TwoOrgsKeepBothEntries(config: Json, orgUrl1: string, endpointType1: string, orgUrl2: string, endpointType2: string)
    requires Upsertable(config) && ExtractOrgName(orgUrl1) != ExtractOrgName(orgUrl2)
    ensures Upsertable(Upsert(config, ServerName(orgUrl1), McpUrl(orgUrl1, endpointType1)).value)
    ensures var both := Upsert(Upsert(config, ServerName(orgUrl1), McpUrl(orgUrl1, endpointType1)).value,
                               ServerName(orgUrl2), McpUrl(orgUrl2, endpointType2)).value;
            var key := ServersKey(config.fields);
            && key in both.fields && both.fields[key].JObject?
            && ServerName(orgUrl1) in both.fields[key].fields
            && both.fields[key].fields[ServerName(orgUrl1)] == Entry(McpUrl(orgUrl1, endpointType1))
            && ServerName(orgUrl2) in both.fields[key].fields
            && both.fields[key].fields[ServerName(orgUrl2)] == Entry(McpUrl(orgUrl2, endpointType2))
  {
    ServerNameInjective(orgUrl1, orgUrl2);
    UpsertKeepsOtherName(config, ServerName(orgUrl1), McpUrl(orgUrl1, endpointType1),
                         ServerName(orgUrl2), McpUrl(orgUrl2, endpointType2));
  }

  /** An https organisation URL gives an endpoint URL the reader reports unchanged. */
  lemma HttpsEndpointReported(orgUrl: string, endpointType: string)
    requires StartsWith(orgUrl, HttpsPrefix)
    ensures StartsWith(McpUrl(orgUrl, endpointType), HttpsPrefix)
    ensures McpUrl(orgUrl, endpointType)[|McpUrl(orgUrl, endpointType)| - 1] != '/'
  {
    McpUrlShape(orgUrl, endpointType);
    var u := McpUrl(orgUrl, endpointType);
    assert u[..|HttpsPrefix|] == orgUrl[..|HttpsPrefix|];
  }

  /**
   * Round trip: after configuring an https organisation into a document that
   * does not hold both keys, `get-configured` reports its endpoint URL.
   */
  lemma ConfiguredUrlReadBack(config: Json, orgUrl: string, endpointType: string)
    requires Upsertable(config) && Readable(config)
    requires !(ServersKeyName in config.fields && McpServersKeyName in config.fields)
    requires StartsWith(orgUrl, HttpsPrefix)
    ensures StoredUrls(Parsed(Upsert(config, ServerName(orgUrl), McpUrl(orgUrl, endpointType)).value)).Some?
    ensures McpUrl(orgUrl, endpointType)
              in StoredUrls(Parsed(Upsert(config, ServerName(orgUrl), McpUrl(orgUrl, endpointType)).value)).value
  {
    HttpsEndpointReported(orgUrl, endpointType);
    UpsertReadBack(config, ServerName(orgUrl), McpUrl(orgUrl, endpointType));
  }

  /**
   * `configure(org_url, endpoint_type)`: build the URL and the name, run
   * `configure_copilot`; exit 0 exactly when it does not raise.
   */
  method Configure(orgUrl: string, endpointType: string, file: ConfigFile, io: Io)
    returns (exitCode: int, serverName: string, mcpUrl: string, file': ConfigFile)
    ensures exitCode == (if CopilotSucceeds(file, io) then 0 else 1)
    ensures serverName == ServerName(orgUrl) && mcpUrl == McpUrl(orgUrl, endpointType)
    ensures file' == FileAfter(file, ServerName(orgUrl), McpUrl(orgUrl, endpointType), io)
  {
    if endpointType == "preview" {
      mcpUrl := orgUrl + PreviewSuffix;
    } else {
      mcpUrl := orgUrl + GaSuffix;
    }
    serverName := ServerName(orgUrl);
    var raised;
    raised, file' := ConfigureCopilot(file, serverName, mcpUrl, io);
    if raised {
      return 1, serverName, mcpUrl, file';
    }
    return 0, serverName, mcpUrl, file';
  }

  /**
   * `get_configured_servers()`: the https URLs of the Copilot file, sorted,
   * each once; None where an uncaught exception ends the run.
   */
  method GetConfigured(file: ConfigFile) returns (r: Option<seq<string>>)
    ensures r.None? <==> StoredUrls(file).None?
    ensures r.Some? ==> StrictlyIncreasing(r.value)
    ensures r.Some? ==> forall u :: u in r.value <==> u in StoredUrls(file).value
    ensures r.Some? ==> forall u :: u in r.value ==> StartsWith(u, HttpsPrefix) && !EndsWith(u, "/")
    ensures file.Missing? || file.Unparseable? ==> r == Some([])
  {
    var urls := ReadStoredUrls(file);
    if urls.None? {
      return None;
    }
    var sorted := SortStrings(urls.value);
    if file.Missing? || file.Unparseable? {
      assert sorted == [];
    }
    return Some(sorted);
  }
}
