/**
 * The filter at the end of `list_environments`: from the Power Apps response
 * keep the Dataverse (CommonDataService) environments that have an instance
 * URL.  Both versions of the setup script contain the same loop.
 */
module Environments {
  import opened Wrappers
  import opened JsonValue
  import opened Text

  const CommonDataService := "CommonDataService"
  const Unnamed := "(unnamed)"

  /** One listed environment.  The display name is whatever JSON value the response holds. */
  datatype Environment = Environment(displayName: Json, instanceUrl: string)

  /**
   * The elements `for e in value` visits while nothing has raised: the items
   * of a list; none for an empty object or string; None where Python raises,
   * at once (not iterable) or on the first element (a str has no `.get`).
   */
  function Iterated(value: Json): (r: Option<seq<Json>>)
    ensures value.JArray? ==> r == Some(value.items)
    ensures r.Some? && !value.JArray? ==> r == Some([])
    ensures r.None? <==> !(value.JArray? || value == EmptyObject || value == JString(""))
  {
    match value
    case JArray(items) => Some(items)
    case JObject(fields) => if fields == map[] then Some([]) else None
    case JString(s) => if s == "" then Some([]) else None
    case _ => None
  }

  /** `e.get("properties", {})`, defined whenever e is an object. */
  function Properties(e: Json): Json
    requires e.JObject?
  {
    Get(e.fields, "properties", EmptyObject)
  }

  /** The entry describes a Dataverse environment. */
  predicate IsDataverse(e: Json)
  {
    e.JObject? && Properties(e).JObject?
    && Get(Properties(e).fields, "databaseType", JNull) == JString(CommonDataService)
  }

  /**
   * One iteration of the loop on e: None if it raises, Some(None) if it skips
   * e, Some(Some(env)) if it appends env.
   */
  function Visit(e: Json): (r: Option<Option<Environment>>)
    ensures r.None? <==> || !e.JObject? || !Properties(e).JObject?
                         || (IsDataverse(e) && (!LinkedMetadata(e).JObject? || !RawInstanceUrl(e).JString?))
    ensures e.JObject? && Properties(e).JObject? && !IsDataverse(e) ==> r == Some(None)
    ensures IsDataverse(e) && LinkedMetadata(e).JObject? && RawInstanceUrl(e).JString? ==>
              var instanceUrl := RStrip(RawInstanceUrl(e).s, {'/'});
              r == if instanceUrl == "" then Some(None)
                   else Some(Some(Environment(Get(Properties(e).fields, "displayName", JString(Unnamed)), instanceUrl)))
    ensures r.Some? && r.value.Some? ==>
              var env := r.value.value;
              && IsDataverse(e)
              && env.instanceUrl != "" && env.instanceUrl[|env.instanceUrl| - 1] != '/'
              && env.displayName == Get(Properties(e).fields, "displayName", JString(Unnamed))
  {
    if !e.JObject? then None
    else
      var props := Properties(e);
      if !props.JObject? then None
      else if Get(props.fields, "databaseType", JNull) != JString(CommonDataService) then Some(None)
      else
        var linked := Get(props.fields, "linkedEnvironmentMetadata", EmptyObject);
        if !linked.JObject? then None
        else
          var raw := Get(linked.fields, "instanceUrl", JString(""));
          if !raw.JString? then None
          else
            var instanceUrl := RStrip(raw.s, {'/'});
            if instanceUrl == "" then Some(None)
            else Some(Some(Environment(Get(props.fields, "displayName", JString(Unnamed)), instanceUrl)))
  }

  /** `props.get("linkedEnvironmentMetadata", {})` of a Dataverse entry. */
  function LinkedMetadata(e: Json): Json
    requires IsDataverse(e)
  {
    Get(Properties(e).fields, "linkedEnvironmentMetadata", EmptyObject)
  }

  /** `linked_metadata.get("instanceUrl", "")`, before stripping. */
  function RawInstanceUrl(e: Json): Json
    requires IsDataverse(e) && LinkedMetadata(e).JObject?
  {
    Get(LinkedMetadata(e).fields, "instanceUrl", JString(""))
  }

  /**
   * A Dataverse entry whose instance URL holds a character other than `/` is
   * listed, with that URL minus its trailing slashes and with its display
   * name, or "(unnamed)" when it has none.
   */
  lemma DataverseEntryListed(e: Json)
    requires IsDataverse(e) && LinkedMetadata(e).JObject? && RawInstanceUrl(e).JString?
    requires exists i :: 0 <= i < |RawInstanceUrl(e).s| && RawInstanceUrl(e).s[i] != '/'
    ensures Filtered([e]).Some? && |Filtered([e]).value| == 1
    ensures var env := Filtered([e]).value[0];
            && env.instanceUrl == RStrip(RawInstanceUrl(e).s, {'/'})
            && env.displayName == if "displayName" in Properties(e).fields
                                  then Properties(e).fields["displayName"] else JString(Unnamed)
  {
    var raw := RawInstanceUrl(e).s;
    var i :| 0 <= i < |raw| && raw[i] != '/';
    assert RStrip(raw, {'/'}) != "";
    FilteredSingle(e);
  }

  /** The list `envs` after the loop has visited items in order; None if an iteration raised. */
  function Filtered(items: seq<Json>): (r: Option<seq<Environment>>)
    ensures r.Some? ==> forall env :: env in r.value ==>
              env.instanceUrl != "" && env.instanceUrl[|env.instanceUrl| - 1] != '/'
    ensures r.Some? ==> |r.value| <= |items|
    ensures r.None? <==> exists e :: e in items && Visit(e).None?
    ensures r.Some? ==> forall env :: env in r.value ==> exists e :: e in items && Visit(e) == Some(Some(env))
    ensures r.Some? ==> forall e :: e in items && Visit(e).Some? && Visit(e).value.Some? ==> Visit(e).value.value in r.value
    decreases |items|
  {
    if items == [] then Some([])
    else
      var prefix, last := items[..|items| - 1], items[|items| - 1];
      assert items == prefix + [last];
      assert forall e :: e in items <==> e in prefix || e == last;
      match Filtered(prefix)
      case None => None
      case Some(envs) =>
        match Visit(last)
        case None => None
        case Some(kept) => Some(envs + if kept.Some? then [kept.value] else [])
  }

  /**
   * The filter keeps input order: filtering a concatenation concatenates the
   * filtered parts, and raises exactly when a part does.
   */
  lemma {:induction false} FilteredAppend(a: seq<Json>, b: seq<Json>)
    ensures Filtered(a + b).Some? <==> Filtered(a).Some? && Filtered(b).Some?
    ensures Filtered(a + b).Some? ==> Filtered(a + b).value == Filtered(a).value + Filtered(b).value
    decreases |b|
  {
    if b == [] {
      assert a + b == a;
    } else {
      var b', last := b[..|b| - 1], b[|b| - 1];
      assert b == b' + [last];
      assert a + b == (a + b') + [last];
      FilteredAppend(a, b');
      FilteredSnoc(b', last);
      FilteredSnoc(a + b', last);
      AppendStep(Filtered(a), Filtered(b'), Filtered([last]), Filtered(a + b'), Filtered(b), Filtered(a + b));
    }
  }

  /**
   * The bookkeeping of one inductive step of FilteredAppend, over the
   * results alone: a = Filtered(a), b' = Filtered(b'), l = Filtered([last]),
   * ab' = Filtered(a + b'), b = Filtered(b' + [last]), ab = Filtered(a + b' + [last]).
   */
  lemma AppendStep(a: Option<seq<Environment>>, b': Option<seq<Environment>>, l: Option<seq<Environment>>,
                   ab': Option<seq<Environment>>, b: Option<seq<Environment>>, ab: Option<seq<Environment>>)
    requires ab'.Some? <==> a.Some? && b'.Some?
    requires ab'.Some? ==> ab'.value == a.value + b'.value
    requires b.Some? <==> b'.Some? && l.Some?
    requires b.Some? ==> b.value == b'.value + l.value
    requires ab.Some? <==> ab'.Some? && l.Some?
    requires ab.Some? ==> ab.value == ab'.value + l.value
    ensures ab.Some? <==> a.Some? && b.Some?
    ensures ab.Some? ==> ab.value == a.value + b.value
  {
    if ab.Some? {
      assert a.value + b'.value + l.value == a.value + (b'.value + l.value);
    }
  }

  /** Filtering one more item appends what that item contributes, or raises. */
  lemma FilteredSnoc(items: seq<Json>, e: Json)
    ensures Filtered(items + [e]).Some? <==> Filtered(items).Some? && Filtered([e]).Some?
    ensures Filtered(items + [e]).Some? ==>
              Filtered(items + [e]).value == Filtered(items).value + Filtered([e]).value
  {
    var w := items + [e];
    assert w[..|w| - 1] == items && w[|w| - 1] == e;
    FilteredSingle(e);
  }

  /** A Dataverse entry with a usable instance URL is listed, with its display name or "(unnamed)". */
  lemma FilteredSingle(e: Json)
    ensures Filtered([e]) == match Visit(e) case None => None
                                            case Some(kept) => Some(if kept.Some? then [kept.value] else [])
  {
    assert [e][..|[e]| - 1] == [];
    assert Filtered([e][..|[e]| - 1]) == Some([]);
    match Visit(e) {
      case None =>
      case Some(kept) =>
        var tail: seq<Environment> := if kept.Some? then [kept.value] else [];
        assert Filtered([e]) == Some([] + tail);
        assert [] + tail == tail;
    }
  }

  /** The environments listed for a parsed response; None where Python raises. */
  function EnvironmentsIn(data: Json): (r: Option<seq<Environment>>)
    ensures !data.JObject? ==> r.None?
    ensures data.JObject? && "value" !in data.fields ==> r == Some([])
    ensures data.JObject? && "value" in data.fields && data.fields["value"].JArray? ==>
              && r == Filtered(data.fields["value"].items)
              && (r.None? <==> exists e :: e in data.fields["value"].items && Visit(e).None?)
              && (r.Some? ==> forall e :: e in data.fields["value"].items && Visit(e).Some? && Visit(e).value.Some? ==>
                                Visit(e).value.value in r.value)
    ensures r.Some? ==> forall env :: env in r.value ==>
              env.instanceUrl != "" && env.instanceUrl[|env.instanceUrl| - 1] != '/'
  {
    if !data.JObject? then None
    else
      match Iterated(Get(data.fields, "value", JArray([])))
      case None => None
      case Some(items) => Filtered(items)
  }

  /** The loop of `list_environments` over `data.get("value", [])`, appending to `envs`. */
  method FilterEnvironments(data: Json) returns (r: Option<seq<Environment>>)
    ensures r == EnvironmentsIn(data)
  {
    if !data.JObject? {
      return None;
    }
    var items: seq<Json>;
    match Iterated(Get(data.fields, "value", JArray([]))) {
      case None =>
        return None;
      case Some(xs) =>
        items := xs;
    }
    var envs: seq<Environment> := [];
    for i := 0 to |items|
      invariant Filtered(items[..i]) == Some(envs)
    {
      var prefix := items[..i + 1];
      assert prefix[..|prefix| - 1] == items[..i] && prefix[|prefix| - 1] == items[i];
      match Visit(items[i]) {
        case None =>
          assert items == prefix + items[i + 1..];
          FilteredAppend(prefix, items[i + 1..]);
          return None;
        case Some(kept) =>
          assert Filtered(prefix) == Some(envs + if kept.Some? then [kept.value] else []);
          if kept.Some? {
            envs := envs + [kept.value];
          } else {
            assert envs + [] == envs;
          }
      }
    }
    assert items[..|items|] == items;
    return Some(envs);
  }

  /** What the az CLI and the Power Apps request produce before the filter runs. */
  datatype Discovery =
    | DiscoveryFailed      // az missing, login failed, no token, HTTP/URL/JSON error: a message and exit 1
    | Received(data: Json)

  /**
   * `list_environments` from the response on: exit 0 with the environments
   * when at least one is found, exit 1 when none is (or an exception ends the run).
   */
  method ListEnvironments(discovery: Discovery) returns (exitCode: int, listed: seq<Environment>)
    ensures exitCode == 0 || exitCode == 1
    ensures exitCode == 0 <==> discovery.Received? && EnvironmentsIn(discovery.data).Some?
                               && EnvironmentsIn(discovery.data).value != []
    ensures exitCode == 0 ==> listed == EnvironmentsIn(discovery.data).value
    ensures exitCode == 1 ==> listed == []
  {
    if discovery.DiscoveryFailed? {
      return 1, [];
    }
    var envs := FilterEnvironments(discovery.data);
    if envs.None? || envs.value == [] {
      return 1, [];
    }
    return 0, envs.value;
  }
}
