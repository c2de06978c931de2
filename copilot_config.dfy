/**
 * The Copilot configuration file `mcp-config.json`: how `configure_copilot`
 * loads it, upserts one server entry and writes it back, and how
 * `get_configured_servers` reads the registered URLs out of it.  Both
 * versions of the setup script contain this code; they differ only in the
 * server name they pass.
 */
module CopilotConfig {
  import opened Wrappers
  import opened JsonValue
  import opened Text

  /** The configuration file, as far as loading it can tell. */
  datatype ConfigFile =
    | Missing           // FileNotFoundError
    | Unparseable       // json.JSONDecodeError
    | Unreadable        // any other error of open/json.load (permissions, undecodable bytes, a directory)
    | Parsed(doc: Json)

  /** How the rewrite of the file goes once it is attempted. */
  datatype WriteOutcome =
    | Written           // the whole document and the final newline were written
    | OpenFailed        // open(..., "w") raised: nothing was truncated
    | Interrupted       // the file was truncated, then a write or flush raised before the whole document was on disk
    | TrailerFailed     // every byte of the document reached the file, then the final newline or the close raised

  /** The filesystem outcomes `configure_copilot` depends on: mkdir, then the write. */
  datatype Io = Io(dirCreated: bool, write: WriteOutcome)

  const ServersKeyName := "servers"
  const McpServersKeyName := "mcpServers"
  const HttpsPrefix := "https://"

  /** The entry written for a server: `{"type": "http", "url": url}`. */
  function Entry(url: string): Json
  {
    JObject(map["type" := JString("http"), "url" := JString(url)])
  }

  /** The document `configure_copilot` starts from: `{}` for a missing or unparseable file. */
  function Load(file: ConfigFile): (r: Option<Json>)
    ensures r.None? <==> file.Unreadable?
    ensures file.Parsed? ==> r == Some(file.doc)
    ensures file.Missing? || file.Unparseable? ==> r == Some(EmptyObject)
  {
    match file
    case Missing => Some(EmptyObject)
    case Unparseable => Some(EmptyObject)
    case Unreadable => None
    case Parsed(doc) => Some(doc)
  }

  /** `"servers" if "servers" in config else "mcpServers"` */
  function ServersKey(config: map<string, Json>): (key: string)
    ensures key == ServersKeyName <==> ServersKeyName in config
    ensures key == ServersKeyName || key == McpServersKeyName
  {
    if ServersKeyName in config then ServersKeyName else McpServersKeyName
  }

  /**
   * The upsert goes through without a TypeError: the document is an object,
   * and the servers value it already holds under the chosen key is one too.
   */
  predicate Upsertable(config: Json)
  {
    && config.JObject?
    && var key := ServersKey(config.fields);
       key in config.fields ==> config.fields[key].JObject?
  }

  /** The server entries under the chosen key before the upsert; none if the key is absent. */
  function OldServers(config: map<string, Json>): map<string, Json>
  {
    var key := ServersKey(config);
    if key in config && config[key].JObject? then config[key].fields else map[]
  }

  /**
   * d' is d with exactly one server entry upserted: the chosen key is added
   * if absent, every other top-level member is unchanged, every other server
   * entry is unchanged, and the entry under name is exactly Entry(url), with
   * nothing kept from any entry it replaces.
   */
  ghost predicate UpsertedFrom(d: map<string, Json>, d': map<string, Json>, name: string, url: string)
  {
    var key := ServersKey(d);
    && d'.Keys == d.Keys + {key}
    && (forall k :: k in d && k != key ==> d'[k] == d[k])
    && d'[key].JObject?
    && d'[key].fields.Keys == OldServers(d).Keys + {name}
    && d'[key].fields[name] == Entry(url)
    && (forall n :: n in OldServers(d) && n != name ==> d'[key].fields[n] == OldServers(d)[n])
  }

  /** The in-memory part of `configure_copilot`: None where Python raises a TypeError. */
  function Upsert(config: Json, name: string, url: string): (r: Option<Json>)
    ensures r.Some? <==> Upsertable(config)
    ensures r.Some? ==> r.value.JObject? && UpsertedFrom(config.fields, r.value.fields, name, url)
  {
    if !Upsertable(config) then None
    else
      var key := ServersKey(config.fields);
      var servers := OldServers(config.fields);
      Some(JObject(config.fields[key := JObject(servers[name := Entry(url)])]))
  }

  /** The description UpsertedFrom leaves no freedom: it determines the new document. */
  lemma UpsertedFromUnique(d: map<string, Json>, d1: map<string, Json>, d2: map<string, Json>, name: string, url: string)
    requires UpsertedFrom(d, d1, name, url) && UpsertedFrom(d, d2, name, url)
    ensures d1 == d2
  {
    var key := ServersKey(d);
    assert d1[key].fields == d2[key].fields by {
      forall n | n in d1[key].fields
        ensures d1[key].fields[n] == d2[key].fields[n]
      {
        if n != name {
          assert n in OldServers(d);
        }
      }
    }
    assert d1[key] == d2[key];
    forall k | k in d1
      ensures d1[k] == d2[k]
    {
      if k != key {
        assert k in d;
      }
    }
  }

  /** Upserting twice under one name keeps only the second entry: the last configuration wins. */
  lemma {:induction false} UpsertLastWins(config: Json, name: string, url1: string, url2: string)
    requires Upsertable(config)
    ensures Upsertable(Upsert(config, name, url1).value)
    ensures Upsert(Upsert(config, name, url1).value, name, url2) == Upsert(config, name, url2)
  {
    var once := Upsert(config, name, url1).value;
    var key := ServersKey(config.fields);
    assert ServersKey(once.fields) == key;
    assert OldServers(once.fields) == OldServers(config.fields)[name := Entry(url1)];
    var twice := Upsert(once, name, url2).value;
    UpsertedFromUnique(config.fields, twice.fields, Upsert(config, name, url2).value.fields, name, url2);
  }

  /** Configuring the same server twice leaves the document as configuring it once. */
  lemma UpsertIdempotent(config: Json, name: string, url: string)
    requires Upsertable(config)
    ensures Upsertable(Upsert(config, name, url).value)
    ensures Upsert(Upsert(config, name, url).value, name, url) == Upsert(config, name, url)
  {
    UpsertLastWins(config, name, url, url);
  }

  /** Servers registered under different names coexist: the second upsert keeps the first entry. */
  lemma UpsertKeepsOtherName(config: Json, name1: string, url1: string, name2: string, url2: string)
    requires Upsertable(config) && name1 != name2
    ensures Upsertable(Upsert(config, name1, url1).value)
    ensures var both := Upsert(Upsert(config, name1, url1).value, name2, url2).value;
            var key := ServersKey(config.fields);
            && key in both.fields && both.fields[key].JObject?
            && name1 in both.fields[key].fields && both.fields[key].fields[name1] == Entry(url1)
            && name2 in both.fields[key].fields && both.fields[key].fields[name2] == Entry(url2)
  {
    var once := Upsert(config, name1, url1).value;
    assert ServersKey(once.fields) == ServersKey(config.fields);
  }

  /** A missing or unparseable file yields `{"mcpServers": {name: {"type": "http", "url": url}}}`. */
  lemma UpsertIntoFreshFile(file: ConfigFile, name: string, url: string)
    requires file.Missing? || file.Unparseable?
    ensures Upsert(Load(file).value, name, url) == Some(JObject(map[McpServersKeyName := JObject(map[name := Entry(url)])]))
  {
  }

  /** The file-system steps of `configure_copilot` get as far as the write. */
  predicate ReachesWrite(file: ConfigFile, io: Io)
  {
    io.dirCreated && Load(file).Some? && Upsertable(Load(file).value)
  }

  /** `configure_copilot` returns without raising. */
  predicate CopilotSucceeds(file: ConfigFile, io: Io)
  {
    ReachesWrite(file, io) && io.write == Written
  }

  /**
   * The file afterwards.  The write is not atomic and goes through a buffer:
   * a failure before every byte of the document has reached the file (in the
   * dump, or when `f.write("\n")` or the close flushes) leaves a truncated
   * file, which the next load treats as unparseable; a failure once the whole
   * document is on disk leaves it there although the call raised.
   */
  function FileAfter(file: ConfigFile, name: string, url: string, io: Io): (r: ConfigFile)
    ensures CopilotSucceeds(file, io) ==> r == Parsed(Upsert(Load(file).value, name, url).value)
    ensures ReachesWrite(file, io) && io.write == TrailerFailed ==> r == Parsed(Upsert(Load(file).value, name, url).value)
    ensures !ReachesWrite(file, io) || io.write == OpenFailed ==> r == file
    ensures ReachesWrite(file, io) && io.write == Interrupted ==> r == Unparseable
  {
    if !ReachesWrite(file, io) then file
    else
      match io.write
      case OpenFailed => file
      case Interrupted => Unparseable
      case Written => Parsed(Upsert(Load(file).value, name, url).value)
      case TrailerFailed => Parsed(Upsert(Load(file).value, name, url).value)
  }

  /** A corrupt file is not skipped: it is replaced by a document holding only the new server. */
  lemma CorruptFileOverwritten(name: string, url: string)
    ensures FileAfter(Unparseable, name, url, Io(true, Written))
         == Parsed(JObject(map[McpServersKeyName := JObject(map[name := Entry(url)])]))
  {
    UpsertIntoFreshFile(Unparseable, name, url);
  }

  /** Running `configure_copilot` a second time after a success leaves the file as it was. */
  lemma ConfigureCopilotIdempotent(file: ConfigFile, name: string, url: string, io: Io)
    requires CopilotSucceeds(file, io)
    ensures CopilotSucceeds(FileAfter(file, name, url, io), io)
    ensures FileAfter(FileAfter(file, name, url, io), name, url, io) == FileAfter(file, name, url, io)
  {
    UpsertIdempotent(Load(file).value, name, url);
  }

  /**
   * `configure_copilot(mcp_url, server_name)`: load (or start from `{}`),
   * choose the servers key, create it if absent, overwrite the one entry,
   * write the document back.  `raised` is true where Python raises.
   */
  method ConfigureCopilot(file: ConfigFile, serverName: string, mcpUrl: string, io: Io)
    returns (raised: bool, file': ConfigFile)
    ensures raised == !CopilotSucceeds(file, io)
    ensures file' == FileAfter(file, serverName, mcpUrl, io)
  {
    if !io.dirCreated {
      return true, file;
    }
    var config: Json;
    match file {
      case Unreadable =>
        return true, file;
      case Missing =>
        config := EmptyObject;
      case Unparseable =>
        config := EmptyObject;
      case Parsed(doc) =>
        config := doc;
    }
    if !config.JObject? {
      return true, file;
    }
    var fields := config.fields;
    var serversKey := if ServersKeyName in fields then ServersKeyName else McpServersKeyName;
    if serversKey !in fields {
      fields := fields[serversKey := EmptyObject];
    }
    if !fields[serversKey].JObject? {
      return true, file;
    }
    var servers := fields[serversKey].fields;
    servers := servers[serverName := Entry(mcpUrl)];
    fields := fields[serversKey := JObject(servers)];
    match io.write {
      case OpenFailed =>
        return true, file;
      case Interrupted =>
        return true, Unparseable;
      case Written =>
        assert JObject(fields) == Upsert(config, serverName, mcpUrl).value;
        return false, Parsed(JObject(fields));
      case TrailerFailed =>
        assert JObject(fields) == Upsert(config, serverName, mcpUrl).value;
        return true, Parsed(JObject(fields));
    }
  }

  /** `config.get("mcpServers", config.get("servers", {}))` */
  function ReadServers(config: map<string, Json>): (r: Json)
    ensures McpServersKeyName in config ==> r == config[McpServersKeyName]
    ensures McpServersKeyName !in config && ServersKeyName in config ==> r == config[ServersKeyName]
    ensures McpServersKeyName !in config && ServersKeyName !in config ==> r == EmptyObject
  {
    Get(config, McpServersKeyName, Get(config, ServersKeyName, EmptyObject))
  }

  /** An entry the reader gets through without an AttributeError: an object whose url, if any, is a string. */
  predicate ReadableEntry(server: Json)
  {
    server.JObject? && ("url" in server.fields ==> server.fields["url"].JString?)
  }

  /** `server.get("url", "").rstrip("/")` */
  function ServerUrl(server: Json): (url: string)
    requires ReadableEntry(server)
    ensures url == [] || url[|url| - 1] != '/'
    ensures "url" !in server.fields ==> url == ""
    ensures "url" in server.fields ==>
              var raw := server.fields["url"].s;
              |url| <= |raw| && url == raw[..|url|] && forall i :: |url| <= i < |raw| ==> raw[i] == '/'
  {
    if "url" in server.fields then RStrip(server.fields["url"].s, {'/'}) else ""
  }

  predicate AllReadable(servers: map<string, Json>)
  {
    forall n :: n in servers ==> ReadableEntry(servers[n])
  }

  /** The reader gets through the whole document without raising. */
  predicate Readable(config: Json)
  {
    config.JObject? && ReadServers(config.fields).JObject? && AllReadable(ReadServers(config.fields).fields)
  }

  /** The https URLs of the named entries, trailing slashes removed. */
  function UrlsAmong(servers: map<string, Json>, names: set<string>): (urls: set<string>)
    requires names <= servers.Keys && AllReadable(servers)
    ensures forall u :: u in urls ==> StartsWith(u, HttpsPrefix) && !EndsWith(u, "/")
  {
    set n | n in names && StartsWith(ServerUrl(servers[n]), HttpsPrefix) :: ServerUrl(servers[n])
  }

  /**
   * What the Copilot half of `get_configured_servers` collects: nothing for a
   * missing or unparseable file, None where an uncaught exception ends the run.
   */
  function StoredUrls(file: ConfigFile): (r: Option<set<string>>)
    ensures r.None? <==> file.Unreadable? || (file.Parsed? && !Readable(file.doc))
    ensures r.Some? ==> forall u :: u in r.value ==> StartsWith(u, HttpsPrefix) && !EndsWith(u, "/")
  {
    match file
    case Missing => Some({})
    case Unparseable => Some({})
    case Unreadable => None
    case Parsed(doc) =>
      if Readable(doc) then
        var servers := ReadServers(doc.fields).fields;
        Some(UrlsAmong(servers, servers.Keys))
      else None
  }

  /** The loop of `get_configured_servers` over the server entries, adding to the set `urls`. */
  method ReadStoredUrls(file: ConfigFile) returns (r: Option<set<string>>)
    ensures r == StoredUrls(file)
  {
    var config: Json;
    match file {
      case Missing =>
        return Some({});
      case Unparseable =>
        return Some({});
      case Unreadable =>
        return None;
      case Parsed(doc) =>
        config := doc;
    }
    if !config.JObject? {
      return None;
    }
    var servers := ReadServers(config.fields);
    if !servers.JObject? {
      return None;
    }
    var entries := servers.fields;
    var urls: set<string> := {};
    var remaining := entries.Keys;
    while remaining != {}
      invariant remaining <= entries.Keys
      invariant forall n :: n in entries && n !in remaining ==> ReadableEntry(entries[n])
      invariant urls == set n | n in entries && n !in remaining && StartsWith(ServerUrl(entries[n]), HttpsPrefix)
                                :: ServerUrl(entries[n])
      decreases remaining
    {
      var n :| n in remaining;
      var server := entries[n];
      if !ReadableEntry(server) {
        return None;
      }
      var url := ServerUrl(server);
      if StartsWith(url, HttpsPrefix) {
        urls := urls + {url};
      }
      remaining := remaining - {n};
    }
    assert AllReadable(entries);
    assert urls == UrlsAmong(entries, entries.Keys);
    return Some(urls);
  }

  /**
   * Round trip: when the document does not hold both keys, the URL just
   * upserted is read back, next to every URL read before that was not
   * stored under the same name.
   */
  lemma UpsertReadBack(config: Json, name: string, url: string)
    requires Upsertable(config) && Readable(config)
    requires !(ServersKeyName in config.fields && McpServersKeyName in config.fields)
    requires StartsWith(url, HttpsPrefix) && url[|url| - 1] != '/'
    ensures Readable(Upsert(config, name, url).value)
    ensures var old_ := ReadServers(config.fields).fields;
            StoredUrls(Parsed(Upsert(config, name, url).value))
              == Some(UrlsAmong(old_, old_.Keys - {name}) + {url})
  {
    var doc := Upsert(config, name, url).value;
    var key := ServersKey(config.fields);
    assert ReadServers(doc.fields) == doc.fields[key];
    assert OldServers(config.fields) == ReadServers(config.fields).fields;
    var servers := doc.fields[key].fields;
    var old_ := ReadServers(config.fields).fields;
    assert servers == old_[name := Entry(url)];
    UrlsAmongAfterStore(old_, name, url);
  }

  /** Storing one well-formed URL under a name replaces whatever URL that name had. */
  lemma UrlsAmongAfterStore(servers: map<string, Json>, name: string, url: string)
    requires AllReadable(servers)
    requires StartsWith(url, HttpsPrefix) && url[|url| - 1] != '/'
    ensures AllReadable(servers[name := Entry(url)])
    ensures var after := servers[name := Entry(url)];
            UrlsAmong(after, after.Keys) == UrlsAmong(servers, servers.Keys - {name}) + {url}
  {
    var after := servers[name := Entry(url)];
    assert ServerUrl(Entry(url)) == url;
    var lhs, kept := UrlsAmong(after, after.Keys), UrlsAmong(servers, servers.Keys - {name});
    forall u | u in lhs
      ensures u in kept + {url}
    {
      var n :| n in after.Keys && StartsWith(ServerUrl(after[n]), HttpsPrefix) && u == ServerUrl(after[n]);
      if n != name {
        assert n in servers.Keys - {name} && after[n] == servers[n];
      }
    }
    forall u | u in kept + {url}
      ensures u in lhs
    {
      if u != url {
        var n :| n in servers.Keys - {name} && StartsWith(ServerUrl(servers[n]), HttpsPrefix)
                 && u == ServerUrl(servers[n]);
        assert n in after.Keys && after[n] == servers[n];
      } else {
        assert name in after.Keys && ServerUrl(after[name]) == url;
      }
    }
  }

  /**
   * With both keys present the writer picks "servers" and the reader
   * "mcpServers": the upsert does not change what the reader returns.
   */
  lemma BothKeysReaderUnchanged(config: Json, name: string, url: string)
    requires Upsertable(config)
    requires ServersKeyName in config.fields && McpServersKeyName in config.fields
    ensures StoredUrls(Parsed(Upsert(config, name, url).value)) == StoredUrls(Parsed(config))
  {
    var after := Upsert(config, name, url).value;
    assert after.fields[McpServersKeyName] == config.fields[McpServersKeyName];
    assert ReadServers(after.fields) == ReadServers(config.fields);
  }

  /**
   * An instance: into `{"servers": {}, "mcpServers": {}}` the URL is written
   * but not read back.
   */
  lemma BothKeysHideTheEntry(name: string, url: string)
    ensures var doc := JObject(map[ServersKeyName := EmptyObject, McpServersKeyName := EmptyObject]);
            Upsertable(doc) && StoredUrls(Parsed(Upsert(doc, name, url).value)) == Some({})
  {
    var doc := JObject(map[ServersKeyName := EmptyObject, McpServersKeyName := EmptyObject]);
    var after := Upsert(doc, name, url).value;
    assert ReadServers(after.fields) == EmptyObject;
    var none: map<string, Json> := map[];
    assert UrlsAmong(none, none.Keys) == {};
  }
}
