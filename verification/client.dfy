/**
 * The organisation repository-listing client: a client object bound to one
 * organisation name, whose repository-listing URL is memoized on first read,
 * and the pure selection logic that turns a listing into repository names.
 */
module Client {
  import opened Wrappers
  import opened JsonValues
  import opened Utils

  /** The fixed endpoint under which organisations are looked up. */
  const OrgEndpoint: string := "https://api.github.com/orgs/"

  /** The attribute under which the listing URL is memoized (`memoize` prefixes the method name with "_"). */
  const ReposUrlAttr: string := MemoAttribute("_public_repos_url")

  /** The organisation URL: the endpoint followed verbatim by the name, with no validation. */
  function OrgUrl(orgName: string): (url: string)
    ensures |url| == |OrgEndpoint| + |orgName|
    ensures url[..|OrgEndpoint|] == OrgEndpoint && url[|OrgEndpoint|..] == orgName
  {
    OrgEndpoint + orgName
  }

  /** Distinct organisation names are sent to distinct URLs. */
  lemma OrgUrlInjective(a: string, b: string)
    requires OrgUrl(a) == OrgUrl(b)
    ensures a == b
  {
  }

  // ---------------------------------------------------------------------
  // License test and name selection (pure)
  // ---------------------------------------------------------------------

  /** A license value that is a mapping whose "key" entry is exactly the string `key`. */
  predicate LicenseKeyIs(license: Json, key: string) {
    license.JObject? && "key" in license.fields && license.fields["key"] == JString(key)
  }

  /**
   * `has_license`: the record's "license" entry, replaced by an empty
   * mapping when it is missing or falsy, is asked for its "key", which is
   * compared with the wanted key.
   */
  function HasLicense(repo: Json, licenseKey: string): (r: Result<bool, Exception>)
    ensures r == Ok(true) <==>
              repo.JObject? && "license" in repo.fields && LicenseKeyIs(repo.fields["license"], licenseKey)
    ensures r.Err? <==>
              !repo.JObject? ||
              ("license" in repo.fields && Truthy(repo.fields["license"]) && !repo.fields["license"].JObject?)
    ensures r.Err? ==> r.error == AttributeError
  {
    match DictGet(repo, "license")
    case Err(e) => Err(e)
    case Ok(license) =>
      var info := if Truthy(license) then license else JObject(map[]);
      match DictGet(info, "key")
      case Err(e) => Err(e)
      case Ok(k) => Ok(k == JString(licenseKey))
  }

  /** A missing, null or empty license, or one without a "key", is "no license", not an error. */
  lemma MissingLicenseIsUnlicensed(fields: map<string, Json>, licenseKey: string)
    requires "license" !in fields || fields["license"] == JNull || fields["license"] == JObject(map[])
             || (fields["license"].JObject? && "key" !in fields["license"].fields)
    ensures HasLicense(JObject(fields), licenseKey) == Ok(false)
  {
  }

  /** A record that can be subscripted by "name". */
  predicate HasName(repo: Json) {
    repo.JObject? && "name" in repo.fields
  }

  /** The first pass of `public_repos`: every record's "name", in order, or the first failing lookup's error. */
  function NamesOf(records: seq<Json>): (r: Result<seq<Json>, Exception>)
    ensures r.Ok? <==> forall i :: 0 <= i < |records| ==> HasName(records[i])
    ensures r.Ok? ==> |r.value| == |records| &&
                      forall i :: 0 <= i < |records| ==> r.value[i] == records[i].fields["name"]
    ensures r.Err? ==> r.error == TypeError || r.error == KeyError("name")
  {
    if records == [] then Ok([])
    else match Subscript(records[0], "name")
      case Err(e) => Err(e)
      case Ok(name) =>
        match NamesOf(records[1..])
        case Err(e) =>
          assert forall j :: 1 <= j < |records| ==> records[j] == records[1..][j - 1];
          Err(e)
        case Ok(names) =>
          assert forall j :: 1 <= j < |records| ==> records[j] == records[1..][j - 1];
          Ok([name] + names)
  }

  /** When some record lacks a name, the first pass fails with the lookup error of the first such record. */
  lemma {:induction false} NamesOfFailsAtFirstUnnamed(records: seq<Json>, i: nat)
    requires i < |records| && !HasName(records[i])
    requires forall j :: 0 <= j < i ==> HasName(records[j])
    ensures NamesOf(records) == Err(Subscript(records[i], "name").error)
  {
    if i > 0 {
      var rest := records[1..];
      assert forall j :: 0 <= j < i - 1 ==> rest[j] == records[j + 1];
      NamesOfFailsAtFirstUnnamed(rest, i - 1);
    }
  }

  /** Reference definition: the records whose license test succeeds with true, in order. */
  function Licensed(records: seq<Json>, licenseKey: string): (kept: seq<Json>)
    ensures |kept| <= |records|
    ensures forall x :: x in kept <==> x in records && HasLicense(x, licenseKey) == Ok(true)
    ensures forall x :: multiset(kept)[x] == if HasLicense(x, licenseKey) == Ok(true) then multiset(records)[x] else 0
  {
    if records == [] then []
    else
      assert records == [records[0]] + records[1..];
      if HasLicense(records[0], licenseKey) == Ok(true)
      then [records[0]] + Licensed(records[1..], licenseKey)
      else Licensed(records[1..], licenseKey)
  }

  /** The licensed records keep their input order: they are a subsequence of the records. */
  lemma {:induction false} LicensedIsSubsequence(records: seq<Json>, licenseKey: string)
    ensures IsSubsequence(Licensed(records, licenseKey), records)
  {
    if records != [] {
      var rest := records[1..];
      LicensedIsSubsequence(rest, licenseKey);
      var kept := Licensed(records, licenseKey);
      if HasLicense(records[0], licenseKey) == Ok(true) {
        assert kept[1..] == Licensed(rest, licenseKey);
      } else {
        SubsequenceCons(kept, rest, records[0]);
        assert [records[0]] + rest == records;
      }
    }
  }

  /**
   * The filtering pass of `public_repos`: for each record in turn the
   * license test runs first, and the name is looked up only for records it
   * keeps.
   */
  function FilteredNames(records: seq<Json>, licenseKey: string): (r: Result<seq<Json>, Exception>)
    ensures r.Ok? ==> |r.value| <= |records|
    ensures r.Ok? ==> forall n :: n in r.value ==>
              exists i :: 0 <= i < |records| && HasLicense(records[i], licenseKey) == Ok(true) &&
                          HasName(records[i]) && records[i].fields["name"] == n
    ensures r.Err? ==> r.error == AttributeError || r.error == TypeError || r.error == KeyError("name")
  {
    if records == [] then Ok([])
    else match HasLicense(records[0], licenseKey)
      case Err(e) => Err(e)
      case Ok(keep) =>
        if !keep then FilteredNames(records[1..], licenseKey)
        else match Subscript(records[0], "name")
          case Err(e) => Err(e)
          case Ok(name) =>
            match FilteredNames(records[1..], licenseKey)
            case Err(e) => Err(e)
            case Ok(names) => Ok([name] + names)
  }

  /**
   * The records a decoded listing iterates over. Iterating a string or a
   * mapping yields strings, and a string subscripted by "name" raises
   * TypeError, so a non-empty one fails at its first element; other
   * non-lists are not iterable.
   */
  function Records(listing: Json): (r: Result<seq<Json>, Exception>)
    ensures r.Err? ==> r.error == TypeError
    ensures listing.JArray? ==> r == Ok(listing.items)
    ensures r.Ok? <==> listing.JArray? || listing == JString("") || listing == JObject(map[])
    ensures r.Ok? && !listing.JArray? ==> r.value == []
  {
    match listing
    case JArray(items) => Ok(items)
    case JString(s) => if s == "" then Ok([]) else Err(TypeError)
    case JObject(m) => if m == map[] then Ok([]) else Err(TypeError)
    case _ => Err(TypeError)
  }

  /**
   * The body of `public_repos` once the listing is decoded: all names are
   * computed first; with no license they are the answer, otherwise the
   * listing is filtered again by license.
   */
  function ListNames(listing: Json, license: Option<string>): (r: Result<seq<Json>, Exception>)
    ensures r.Ok? ==> Records(listing).Ok? && NamesOf(Records(listing).value).Ok?
    ensures r.Ok? && license.None? ==> r.value == NamesOf(Records(listing).value).value
    ensures r.Ok? && license.Some? ==> |r.value| <= |Records(listing).value|
    ensures r.Err? ==> r.error == TypeError || r.error == KeyError("name") || r.error == AttributeError
  {
    match Records(listing)
    case Err(e) => Err(e)
    case Ok(records) =>
      match NamesOf(records)
      case Err(e) => Err(e)
      case Ok(names) =>
        if license.None? then Ok(names) else FilteredNames(records, license.value)
  }

  /** `a` is `b` with some elements left out, the rest kept in order. */
  predicate IsSubsequence<T(==)>(a: seq<T>, b: seq<T>)
    decreases |b|
  {
    if a == [] then true
    else if b == [] then false
    else if a[0] == b[0] then IsSubsequence(a[1..], b[1..])
    else IsSubsequence(a, b[1..])
  }

  /** Prepending an element to the longer sequence keeps a subsequence a subsequence. */
  lemma {:induction false} SubsequenceCons<T>(a: seq<T>, b: seq<T>, x: T)
    requires IsSubsequence(a, b)
    ensures IsSubsequence(a, [x] + b)
    decreases |b|, 1
  {
    if a != [] {
      assert ([x] + b)[1..] == b;
      if a[0] == x {
        SubsequenceTail(a, b);
      }
    }
  }

  /** Dropping the first element of a subsequence leaves a subsequence. */
  lemma {:induction false} SubsequenceTail<T>(a: seq<T>, b: seq<T>)
    requires a != [] && IsSubsequence(a, b)
    ensures IsSubsequence(a[1..], b)
    decreases |b|, 0
  {
    if a[0] == b[0] {
      SubsequenceCons(a[1..], b[1..], b[0]);
      assert [b[0]] + b[1..] == b;
    } else {
      SubsequenceTail(a, b[1..]);
      SubsequenceCons(a[1..], b[1..], b[0]);
      assert [b[0]] + b[1..] == b;
    }
  }

  /** With no license, `public_repos` answers every record's name, in listing order. */
  lemma UnfilteredIsAllNames(records: seq<Json>)
    ensures ListNames(JArray(records), None).Ok? <==> forall i :: 0 <= i < |records| ==> HasName(records[i])
    ensures ListNames(JArray(records), None).Ok? ==>
              |ListNames(JArray(records), None).value| == |records| &&
              forall i :: 0 <= i < |records| ==>
                ListNames(JArray(records), None).value[i] == records[i].fields["name"]
  {
  }

  /**
   * Names are looked up for every record before any filtering, so one record
   * without a name makes every call fail, whatever license is asked for.
   */
  lemma UnnamedRecordFailsEveryFilter(records: seq<Json>, license: Option<string>, i: nat)
    requires i < |records| && !HasName(records[i])
    ensures ListNames(JArray(records), license).Err?
    ensures ListNames(JArray(records), license) == ListNames(JArray(records), None)
  {
  }

  /**
   * When every record has a name and a well-formed license entry, the
   * filtered answer is exactly the names of the licensed records, in order.
   */
  lemma {:induction false} FilteredNamesAreLicensedNames(records: seq<Json>, licenseKey: string)
    requires forall i :: 0 <= i < |records| ==> HasName(records[i])
    requires forall i :: 0 <= i < |records| ==> HasLicense(records[i], licenseKey).Ok?
    ensures NamesOf(Licensed(records, licenseKey)).Ok?
    ensures FilteredNames(records, licenseKey) == NamesOf(Licensed(records, licenseKey))
  {
    if records != [] {
      var rest := records[1..];
      assert forall i :: 0 <= i < |rest| ==> rest[i] == records[i + 1];
      FilteredNamesAreLicensedNames(rest, licenseKey);
      if HasLicense(records[0], licenseKey) == Ok(true) {
        var kept := Licensed(records, licenseKey);
        assert kept == [records[0]] + Licensed(rest, licenseKey);
        assert kept[1..] == Licensed(rest, licenseKey);
      }
    }
  }

  /**
   * When every record has a name, the filtered pass fails exactly when some
   * record's license entry is truthy but not a mapping, and then with
   * AttributeError.
   */
  lemma {:induction false} FilterFailsOnlyOnMalformedLicense(records: seq<Json>, licenseKey: string)
    requires forall i :: 0 <= i < |records| ==> HasName(records[i])
    ensures FilteredNames(records, licenseKey).Err? <==>
              exists i :: 0 <= i < |records| && HasLicense(records[i], licenseKey).Err?
    ensures FilteredNames(records, licenseKey).Err? ==>
              FilteredNames(records, licenseKey).error == AttributeError
  {
    if records != [] {
      var rest := records[1..];
      assert forall i :: 0 <= i < |rest| ==> rest[i] == records[i + 1];
      FilterFailsOnlyOnMalformedLicense(rest, licenseKey);
      if exists i :: 0 <= i < |rest| && HasLicense(rest[i], licenseKey).Err? {
        var i :| 0 <= i < |rest| && HasLicense(rest[i], licenseKey).Err?;
        assert HasLicense(records[i + 1], licenseKey).Err?;
      }
    }
  }

  /** The filtered answer keeps names of the unfiltered answer, in their original relative order. */
  lemma {:induction false} FilteredIsSubsequenceOfAll(records: seq<Json>, licenseKey: string)
    requires NamesOf(records).Ok? && FilteredNames(records, licenseKey).Ok?
    ensures IsSubsequence(FilteredNames(records, licenseKey).value, NamesOf(records).value)
  {
    if records != [] {
      var rest := records[1..];
      FilteredIsSubsequenceOfAll(rest, licenseKey);
      var all := NamesOf(records).value;
      assert all[1..] == NamesOf(rest).value;
      if HasLicense(records[0], licenseKey) == Ok(false) {
        SubsequenceCons(FilteredNames(rest, licenseKey).value, NamesOf(rest).value, all[0]);
        assert [all[0]] + all[1..] == all;
      }
    }
  }

  /** With a license, the answer is a subsequence of the answer with none. */
  lemma FilteredListingIsSubsequence(listing: Json, licenseKey: string)
    requires ListNames(listing, Some(licenseKey)).Ok?
    ensures ListNames(listing, None).Ok?
    ensures IsSubsequence(ListNames(listing, Some(licenseKey)).value, ListNames(listing, None).value)
  {
    FilteredIsSubsequenceOfAll(Records(listing).value, licenseKey);
  }

  /** A listing of three repositories, licensed "mit", "apache-2.0" and not at all. */
  lemma ListingScenario()
    ensures var a := JObject(map["name" := JString("a"), "license" := JObject(map["key" := JString("mit")])]);
            var b := JObject(map["name" := JString("b"), "license" := JObject(map["key" := JString("apache-2.0")])]);
            var c := JObject(map["name" := JString("c")]);
            var listing := JArray([a, b, c]);
            && ListNames(listing, None) == Ok([JString("a"), JString("b"), JString("c")])
            && ListNames(listing, Some("apache-2.0")) == Ok([JString("b")])
            && ListNames(listing, Some("gpl")) == Ok([])
  {
    var a := JObject(map["name" := JString("a"), "license" := JObject(map["key" := JString("mit")])]);
    var b := JObject(map["name" := JString("b"), "license" := JObject(map["key" := JString("apache-2.0")])]);
    var c := JObject(map["name" := JString("c")]);
    var records := [a, b, c];
    assert records[1..] == [b, c] && records[2..] == [c] && records[3..] == [];
    assert records[1..][1..] == [c] && records[2..][1..] == [];
    assert NamesOf(records) == Ok([JString("a"), JString("b"), JString("c")]) by {
      assert [JString("c")] + [] == [JString("c")];
      assert [JString("b")] + [JString("c")] == [JString("b"), JString("c")];
      assert [JString("a")] + [JString("b"), JString("c")] == [JString("a"), JString("b"), JString("c")];
      assert NamesOf(records[2..]) == Ok([JString("c")]);
      assert NamesOf(records[1..]) == Ok([JString("b"), JString("c")]);
    }
    assert HasLicense(a, "apache-2.0") == Ok(false) && HasLicense(b, "apache-2.0") == Ok(true);
    assert HasLicense(c, "apache-2.0") == Ok(false) && HasLicense(c, "gpl") == Ok(false);
    assert HasLicense(a, "gpl") == Ok(false) && HasLicense(b, "gpl") == Ok(false);
    assert FilteredNames(records[2..], "apache-2.0") == Ok([]);
    assert [JString("b")] + [] == [JString("b")];
    assert FilteredNames(records[1..], "apache-2.0") == Ok([JString("b")]);
    assert FilteredNames(records[2..], "gpl") == Ok([]);
    assert FilteredNames(records[1..], "gpl") == Ok([]);
  }

  /** The result of reading the memoized listing URL with attributes `attrs`. */
  function ReposUrlRead(orgName: string, attrs: map<string, Json>, net: Net): (r: Result<Json, Exception>)
    ensures ReposUrlAttr in attrs ==> r == Ok(attrs[ReposUrlAttr])
    ensures r.Err? ==>
              && ReposUrlAttr !in attrs
              && (r == net(OrgUrl(orgName)) || r.error == TypeError || r.error == KeyError("repos_url"))
  {
    if ReposUrlAttr in attrs then Ok(attrs[ReposUrlAttr])
    else match net(OrgUrl(orgName))
      case Err(e) => Err(e)
      case Ok(org) => Subscript(org, "repos_url")
  }

  /**
   * Once the attribute is present its value is the answer whatever the
   * network would say, and whatever that value is, `null` included: the
   * cache is tested for presence, not truth.
   */
  lemma MemoizedUrlIgnoresNetwork(orgName: string, attrs: map<string, Json>, net1: Net, net2: Net)
    requires ReposUrlAttr in attrs
    ensures ReposUrlRead(orgName, attrs, net1) == Ok(attrs[ReposUrlAttr])
    ensures ReposUrlRead(orgName, attrs, net1) == ReposUrlRead(orgName, attrs, net2)
  {
  }

  /** Without the attribute the organisation is fetched, and a missing "repos_url" is an error, never a default. */
  lemma UnmemoizedUrlReadsOrganisation(orgName: string, attrs: map<string, Json>, net: Net)
    requires ReposUrlAttr !in attrs
    ensures ReposUrlRead(orgName, attrs, net).Ok? <==>
              net(OrgUrl(orgName)).Ok? && net(OrgUrl(orgName)).value.JObject? &&
              "repos_url" in net(OrgUrl(orgName)).value.fields
    ensures ReposUrlRead(orgName, attrs, net).Ok? ==>
              ReposUrlRead(orgName, attrs, net).value == net(OrgUrl(orgName)).value.fields["repos_url"]
  {
  }

  /** Fetching the listing at a memoized URL and selecting names from it. */
  function Listing(net: Net, url: Json, license: Option<string>): (r: Result<seq<Json>, Exception>)
    ensures !url.JString? ==> r == Err(InvalidUrl)
    ensures r.Ok? ==> url.JString? && net(url.str).Ok? && r == ListNames(net(url.str).value, license)
    ensures url.JString? && net(url.str).Err? ==> r == Err(net(url.str).error)
  {
    if !url.JString? then Err(InvalidUrl)
    else match net(url.str)
      case Err(e) => Err(e)
      case Ok(listing) => ListNames(listing, license)
  }

  /**
   * `GithubOrgClient`. `attributes` holds the instance attributes that
   * `memoize` sets; `requests` records, in order, every URL fetched through
   * this client.
   */
  class GithubOrgClient {
    const orgName: string
    var attributes: map<string, Json>
    ghost var requests: seq<string>

    constructor (orgName: string)
      ensures this.orgName == orgName
      ensures attributes == map[] && requests == []
    {
      this.orgName := orgName;
      attributes := map[];
      requests := [];
    }

    /** `org`: fetches the organisation URL on every access; nothing is cached. */
    method Org(net: Net) returns (r: Result<Json, Exception>)
      modifies this
      ensures r == net(OrgUrl(orgName))
      ensures requests == old(requests) + [OrgUrl(orgName)]
      ensures attributes == old(attributes)
    {
      var url := OrgUrl(orgName);
      requests := requests + [url];
      r := net(url);
    }

    /**
     * `_public_repos_url` under `memoize`: when the attribute is present its
     * value is returned, whatever it is, with no fetch; otherwise the
     * organisation is fetched, its "repos_url" read, and the attribute set
     * only if both succeeded.
     */
    method PublicReposUrl(net: Net) returns (r: Result<Json, Exception>)
      modifies this
      ensures r == ReposUrlRead(orgName, old(attributes), net)
      ensures ReposUrlAttr in old(attributes) ==>
                attributes == old(attributes) && requests == old(requests)
      ensures ReposUrlAttr !in old(attributes) ==>
                requests == old(requests) + [OrgUrl(orgName)] &&
                attributes == (if r.Ok? then old(attributes)[ReposUrlAttr := r.value] else old(attributes))
    {
      if ReposUrlAttr !in attributes {
        var org := Org(net);
        if org.Err? {
          return Err(org.error);
        }
        var url := Subscript(org.value, "repos_url");
        if url.Err? {
          return Err(url.error);
        }
        attributes := attributes[ReposUrlAttr := url.value];
      }
      r := Ok(attributes[ReposUrlAttr]);
    }

    /**
     * `public_repos`: reads the memoized URL, performs exactly one listing
     * fetch at it, and selects names from the listing.
     */
    method PublicRepos(net: Net, license: Option<string>) returns (r: Result<seq<Json>, Exception>)
      modifies this
      ensures var url := ReposUrlRead(orgName, old(attributes), net);
              && r == (match url case Err(e) => Err(e) case Ok(u) => Listing(net, u, license))
              && requests == old(requests)
                             + (if ReposUrlAttr in old(attributes) then [] else [OrgUrl(orgName)])
                             + (if url.Ok? && url.value.JString? then [url.value.str] else [])
              && attributes == (if url.Ok? then old(attributes)[ReposUrlAttr := url.value] else old(attributes))
    {
      var url := PublicReposUrl(net);
      if url.Err? {
        return Err(url.error);
      }
      if !url.value.JString? {
        return Err(InvalidUrl);
      }
      requests := requests + [url.value.str];
      var listing := net(url.value.str);
      if listing.Err? {
        return Err(listing.error);
      }
      r := ListNames(listing.value, license);
    }
  }

  /**
   * Two reads of the listing URL on a client that has not cached it: after a
   * successful first read the second returns the same value without a fetch,
   * so the organisation is fetched once; after a failed one nothing was
   * stored and the second read fetches again.
   */
  method ReadReposUrlTwice(client: GithubOrgClient, net: Net) returns (first: Result<Json, Exception>, second: Result<Json, Exception>)
    requires ReposUrlAttr !in client.attributes
    modifies client
    ensures first.Ok? ==> second == first && client.requests == old(client.requests) + [OrgUrl(client.orgName)]
    ensures first.Err? ==> client.requests == old(client.requests) + [OrgUrl(client.orgName), OrgUrl(client.orgName)]
  {
    first := client.PublicReposUrl(net);
    second := client.PublicReposUrl(net);
  }
}
