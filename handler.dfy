/**
 * The Sefaria API client: how each lookup builds its request URL and what it
 * makes of the decoded response.  The HTTP GET itself is `Env.fetch`, which
 * answers the decoded JSON body of a URL, or None when the request failed
 * (a transport error, an error status or a body that is not JSON).
 */
module SefariaHandler {
  import opened PyJson

  /**
   * What the client takes from outside: the configured base URL, the network,
   * and the text Python's `str()` gives a list or a dict.
   */
  datatype Env = Env(base: string, fetch: string -> Option<Json>, strOf: Json -> string)

  const TextsEndpoint := "api/v3/texts/"
  const RelatedEndpoint := "api/related/"
  const CalendarsEndpoint := "api/calendars"
  const EnglishVersionParam := "version=english"
  const ParashaTitle := "Parashat Hashavua"

  // ---------------------------------------------------------------------------
  // Request URLs

  /**
   * The URL `get_request_json_data(endpoint, ref, param)` requests: the base, a
   * slash and the endpoint; then the reference, verbatim, when it is truthy;
   * then `?` and the parameter when that is truthy.
   */
  function RequestUrl(base: string, endpoint: string, ref: Json, param: Json, strOf: Json -> string): (url: string)
    ensures IsPrefix(base + "/" + endpoint, url)
    ensures !Truthy(ref) && !Truthy(param) ==> url == base + "/" + endpoint
    ensures Truthy(ref) && !Truthy(param) ==> url == base + "/" + endpoint + PyStr(ref, strOf)
    ensures !Truthy(ref) && Truthy(param) ==> url == base + "/" + endpoint + "?" + PyStr(param, strOf)
    ensures Truthy(ref) && Truthy(param) ==> url == base + "/" + endpoint + PyStr(ref, strOf) + "?" + PyStr(param, strOf)
  {
    var url := base + "/" + endpoint;
    var url := if Truthy(ref) then url + PyStr(ref, strOf) else url;
    if Truthy(param) then url + "?" + PyStr(param, strOf) else url
  }

  /** The decoded body `get_request_json_data` returns: None when the request failed. */
  function Response(env: Env, url: string): Json {
    match env.fetch(url)
    case None => JNull
    case Some(body) => body
  }

  /** The text lookups of the Hebrew text and of a commentary send no query parameter. */
  function TextsUrl(env: Env, ref: Json): string {
    RequestUrl(env.base, TextsEndpoint, ref, JNull, env.strOf)
  }

  /** Only the English lookup asks for `version=english`. */
  function EnglishTextsUrl(env: Env, ref: Json): string {
    RequestUrl(env.base, TextsEndpoint, ref, JStr(EnglishVersionParam), env.strOf)
  }

  function RelatedUrl(env: Env, ref: Json): string {
    RequestUrl(env.base, RelatedEndpoint, ref, JNull, env.strOf)
  }

  function CalendarsUrl(env: Env): string {
    RequestUrl(env.base, CalendarsEndpoint, JNull, JNull, env.strOf)
  }

  /** The English lookup requests the Hebrew lookup's URL with `?version=english` appended. */
  lemma EnglishUrlExtendsTextsUrl(env: Env, ref: Json)
    ensures EnglishTextsUrl(env, ref) == TextsUrl(env, ref) + "?" + EnglishVersionParam
    ensures TextsUrl(env, ref) == env.base + "/" + TextsEndpoint + (if Truthy(ref) then PyStr(ref, env.strOf) else "")
  {
  }

  /** Two different string references are requested at two different text URLs. */
  lemma {:induction false} TextsUrlInjective(env: Env, a: string, b: string)
    requires TextsUrl(env, JStr(a)) == TextsUrl(env, JStr(b))
    ensures a == b
  {
    var p := env.base + "/" + TextsEndpoint;
    assert TextsUrl(env, JStr(a)) == p + a;
    assert TextsUrl(env, JStr(b)) == p + b;
    assert a == (p + a)[|p|..];
    assert b == (p + b)[|p|..];
  }

  /**
   * A reference is spliced into the URL verbatim, so a reference that itself
   * ends in `?version=english` makes the Hebrew lookup request exactly the URL
   * of the English lookup of the shorter reference.
   */
  lemma UnescapedRefReachesEnglishUrl(env: Env, ref: string)
    ensures TextsUrl(env, JStr(ref + "?" + EnglishVersionParam)) == EnglishTextsUrl(env, JStr(ref))
  {
    var p := env.base + "/" + TextsEndpoint;
    assert p + (ref + "?" + EnglishVersionParam) == p + ref + "?" + EnglishVersionParam;
    if ref == "" {
      assert p + ref == p;
    }
  }

  // ---------------------------------------------------------------------------
  // Text lookups: only versions[0] is read

  /** `data and "versions" in data and len(data['versions']) > 0` */
  function HasVersions(data: Json): Result<bool, Fault> {
    if !Truthy(data) then Ok(false)
    else
      var present :- Contains(data, "versions");
      if !present then Ok(false)
      else
        var versions :- GetItem(data, "versions");
        LenPositive(versions)
  }

  /** `data['versions'][0]` */
  function FirstVersion(data: Json): Result<Json, Fault> {
    var versions :- GetItem(data, "versions");
    Index0(versions)
  }

  /**
   * The responses a text lookup reports as not found: a falsy response, or a
   * dict whose "versions" is absent or an empty list, str or dict.  A
   * "versions" of null, a bool or an int makes `len()` raise instead.
   */
  predicate NoVersions(data: Json) {
    || !Truthy(data)
    || (data.JObj? &&
        match Lookup(data.members, "versions")
        case None => true
        case Some(v) => (v.JArr? || v.JStr? || v.JObj?) && !Truthy(v))
  }

  /** A dict whose "versions" is a value without `len()`: null, a bool or an int. */
  predicate VersionsWithoutLen(members: seq<(string, Json)>) {
    match Lookup(members, "versions")
    case Some(v) => v.JNull? || v.JBool? || v.JInt?
    case None => false
  }

  /** The first version when the response is a dict whose "versions" is a non-empty list. */
  function ListedVersion(data: Json): Option<Json> {
    if data.JObj? then
      match Lookup(data.members, "versions")
      case Some(JArr(vs)) => if vs != [] then Some(vs[0]) else None
      case _ => None
    else None
  }

  /**
   * What `get_hebrew_text` makes of a response: the "text" of the first
   * version, JNull (None) when the response has no versions.
   */
  function HebrewTextIn(data: Json): (r: Result<Json, Fault>)
    ensures NoVersions(data) ==> r == Ok(JNull)
    ensures ListedVersion(data).Some? ==> r == GetItem(ListedVersion(data).value, "text")
    ensures Truthy(data) && !(data.JObj? || data.JArr? || data.JStr?) ==> r == Err(NotContainer(TypeName(data)))
    ensures data.JObj? && VersionsWithoutLen(data.members) ==> r == Err(NoLen(TypeName(Lookup(data.members, "versions").value)))
  {
    var found :- HasVersions(data);
    if !found then Ok(JNull)
    else
      var first :- FirstVersion(data);
      GetItem(first, "text")
  }

  /** `get_hebrew_text(ref)` reads the response of the texts URL, sent without a query parameter. */
  function GetHebrewText(env: Env, ref: Json): (r: Result<Json, Fault>)
  {
    HebrewTextIn(Response(env, TextsUrl(env, ref)))
  }

  /**
   * What `get_english_text` makes of a response: ("versionTitle", "text") of
   * the first version, (None, None) when the response has no versions.
   */
  function EnglishTextIn(data: Json): (r: Result<(Json, Json), Fault>)
    ensures NoVersions(data) ==> r == Ok((JNull, JNull))
    ensures Truthy(data) && !(data.JObj? || data.JArr? || data.JStr?) ==> r == Err(NotContainer(TypeName(data)))
    ensures data.JObj? && VersionsWithoutLen(data.members) ==> r == Err(NoLen(TypeName(Lookup(data.members, "versions").value)))
    ensures ListedVersion(data).Some? ==>
              var v := ListedVersion(data).value;
              && (r.Ok? <==> v.JObj? && HasKey(v.members, "versionTitle") && HasKey(v.members, "text"))
              && (r.Ok? ==> r.value == (Lookup(v.members, "versionTitle").value, Lookup(v.members, "text").value))
  {
    var found :- HasVersions(data);
    if !found then Ok((JNull, JNull))
    else
      var first :- FirstVersion(data);
      var versionTitle :- GetItem(first, "versionTitle");
      var text :- GetItem(first, "text");
      Ok((versionTitle, text))
  }

  /** `get_english_text(ref)` reads the response of the texts URL sent with `?version=english`. */
  function GetEnglishText(env: Env, ref: Json): (r: Result<(Json, Json), Fault>)
  {
    EnglishTextIn(Response(env, EnglishTextsUrl(env, ref)))
  }

  /**
   * What `get_commentary_text` makes of a response: its "title" and the
   * "text" of its first version, (None, None) when it has no versions.
   */
  function CommentaryTextIn(data: Json): (r: Result<(Json, Json), Fault>)
    ensures NoVersions(data) ==> r == Ok((JNull, JNull))
    ensures Truthy(data) && !(data.JObj? || data.JArr? || data.JStr?) ==> r == Err(NotContainer(TypeName(data)))
    ensures data.JObj? && VersionsWithoutLen(data.members) ==> r == Err(NoLen(TypeName(Lookup(data.members, "versions").value)))
    ensures ListedVersion(data).Some? ==>
              var v := ListedVersion(data).value;
              && (r.Ok? <==> HasKey(data.members, "title") && v.JObj? && HasKey(v.members, "text"))
              && (r.Ok? ==> r.value == (Lookup(data.members, "title").value, Lookup(v.members, "text").value))
  {
    var found :- HasVersions(data);
    if !found then Ok((JNull, JNull))
    else
      var title :- GetItem(data, "title");
      var first :- FirstVersion(data);
      var text :- GetItem(first, "text");
      Ok((title, text))
  }

  /** `get_commentary_text(ref)` reads the response of the texts URL, sent without a query parameter. */
  function GetCommentaryText(env: Env, ref: Json): (r: Result<(Json, Json), Fault>)
  {
    CommentaryTextIn(Response(env, TextsUrl(env, ref)))
  }

  /**
   * The lookups read versions[0] and nothing after it: two responses that
   * agree up to a "versions" list with the same first entry give the same
   * results.
   */
  lemma OnlyFirstVersionRead(members: seq<(string, Json)>, v: Json, rest1: seq<Json>, rest2: seq<Json>)
    ensures var d1 := JObj(members + [("versions", JArr([v] + rest1))]);
            var d2 := JObj(members + [("versions", JArr([v] + rest2))]);
            && HebrewTextIn(d1) == HebrewTextIn(d2)
            && EnglishTextIn(d1) == EnglishTextIn(d2)
            && CommentaryTextIn(d1) == CommentaryTextIn(d2)
  {
    var m1 := members + [("versions", JArr([v] + rest1))];
    var m2 := members + [("versions", JArr([v] + rest2))];
    assert m1[..|members|] == members == m2[..|members|];
    assert Lookup(m1, "title") == Lookup(members, "title") == Lookup(m2, "title");
  }

  /**
   * `get_text(reference)`: `str()` of the Hebrew text, so a lookup that finds
   * nothing answers the four characters "None" rather than no text.
   */
  function GetText(env: Env, reference: Json): (r: Result<string, Fault>)
    ensures NoVersions(Response(env, TextsUrl(env, reference))) ==> r == Ok("None")
    ensures r.Err? <==> GetHebrewText(env, reference).Err?
    ensures GetHebrewText(env, reference).Ok? && GetHebrewText(env, reference).value.JStr? ==>
              r == Ok(GetHebrewText(env, reference).value.s)
  {
    var text :- GetHebrewText(env, reference);
    Ok(PyStr(text, env.strOf))
  }

  // ---------------------------------------------------------------------------
  // Weekly portion

  /** `item.get('title', {}).get('en') == 'Parashat Hashavua'` */
  function IsParashaItem(item: Json): (r: Result<bool, Fault>)
    ensures r.Err? <==> !item.JObj? || (HasKey(item.members, "title") && !Lookup(item.members, "title").value.JObj?)
    ensures r.Err? ==> r.error.NoAttribute? && r.error.attr == "get"
  {
    var title :- Get(item, "title", JObj([]));
    var en :- Get(title, "en", JNull);
    Ok(en == JStr(ParashaTitle))
  }

  /** `(item.get('ref'), item.get('displayValue', {}).get('en'))` */
  function ParashaFields(item: Json): Result<(Json, Json), Fault> {
    var ref :- Get(item, "ref", JNull);
    var display :- Get(item, "displayValue", JObj([]));
    var name :- Get(display, "en", JNull);
    Ok((ref, name))
  }

  /**
   * The scan over the calendar items: the fields of the first item titled
   * 'Parashat Hashavua', None when there is none, or the first fault met on
   * the way.
   */
  function FindParasha(items: seq<Json>): (r: Result<Option<(Json, Json)>, Fault>)
    ensures r == Ok(None) <==> forall k :: 0 <= k < |items| ==> IsParashaItem(items[k]) == Ok(false)
  {
    if items == [] then Ok(None)
    else
      var hit :- IsParashaItem(items[0]);
      if hit then
        var fields :- ParashaFields(items[0]);
        Ok(Some(fields))
      else
        assert forall k :: 1 <= k < |items| ==> items[k] == items[1..][k - 1];
        FindParasha(items[1..])
  }

  /**
   * Items after the first one titled 'Parashat Hashavua' are never looked
   * at; items before it decide alone when they already end the scan.
   */
  lemma {:induction false} FindParashaAppend(a: seq<Json>, b: seq<Json>)
    ensures FindParasha(a + b) == if FindParasha(a) == Ok(None) then FindParasha(b) else FindParasha(a)
  {
    if a == [] {
      assert a + b == b;
    } else {
      assert (a + b)[0] == a[0];
      assert (a + b)[1..] == a[1..] + b;
      FindParashaAppend(a[1..], b);
    }
  }

  /** The first item titled 'Parashat Hashavua', after items that are all plain non-matching dicts, is the answer. */
  lemma FindParashaFirstMatch(items: seq<Json>, i: nat)
    requires i < |items|
    requires forall k :: 0 <= k < i ==> IsParashaItem(items[k]) == Ok(false)
    requires IsParashaItem(items[i]) == Ok(true)
    ensures FindParasha(items) == match ParashaFields(items[i])
                                  case Ok(fields) => Ok(Some(fields))
                                  case Err(f) => Err(f)
  {
    assert items == items[..i] + items[i..];
    FindParashaAppend(items[..i], items[i..]);
  }

  /** `get_parasha_data()` on a decoded calendar response. */
  function ParashaOf(data: Json): (r: Result<(Json, Json), Fault>)
    ensures !Truthy(data) ==> r == Ok((JNull, JNull))
    ensures data.JObj? && Truthy(data) && !HasKey(data.members, "calendar_items") ==> r == Ok((JNull, JNull))
    ensures data.JObj? && Truthy(data) && Lookup(data.members, "calendar_items").Some? && Lookup(data.members, "calendar_items").value.JArr? ==>
              var items := Lookup(data.members, "calendar_items").value.items;
              r == match FindParasha(items)
                   case Ok(Some(fields)) => Ok(fields)
                   case Ok(None) => Ok((JNull, JNull))
                   case Err(f) => Err(f)
  {
    if !Truthy(data) then Ok((JNull, JNull))
    else
      var calendarItems :- Get(data, "calendar_items", JArr([]));
      var items :- Elements(calendarItems);
      var found :- FindParasha(items);
      Ok(if found.Some? then found.value else (JNull, JNull))
  }

  /**
   * `get_parasha_data()`: the ref and English display value of the first
   * calendar item titled 'Parashat Hashavua', (None, None) when there is no
   * data or no such item.
   */
  method GetParashaData(env: Env) returns (r: Result<(Json, Json), Fault>)
    ensures r == ParashaOf(Response(env, CalendarsUrl(env)))
  {
    var data := Response(env, CalendarsUrl(env));
    if Truthy(data) {
      var calendarItems :- Get(data, "calendar_items", JArr([]));
      var items :- Elements(calendarItems);
      var i := 0;
      while i < |items|
        invariant 0 <= i <= |items|
        invariant FindParasha(items) == FindParasha(items[i..])
      {
        var item := items[i];
        assert items[i..][1..] == items[i + 1..];
        var hit :- IsParashaItem(item);
        if hit {
          var fields :- ParashaFields(item);
          return Ok(fields);
        }
        i := i + 1;
      }
    }
    return Ok((JNull, JNull));
  }

  /**
   * `get_first_verse(parasha_ref)`: the part of the reference before the
   * first '-', the whole reference when it has none, None for a falsy one.
   */
  function FirstVerse(parashaRef: Json): (r: Result<Json, Fault>)
    ensures !Truthy(parashaRef) ==> r == Ok(JNull)
    ensures parashaRef.JStr? && Truthy(parashaRef) ==>
              && r.Ok? && r.value.JStr?
              && IsPrefix(r.value.s, parashaRef.s)
              && '-' !in r.value.s
              && (|r.value.s| < |parashaRef.s| ==> parashaRef.s[|r.value.s|] == '-')
    ensures Truthy(parashaRef) && !parashaRef.JStr? ==> r == Err(NoAttribute(TypeName(parashaRef), "split"))
  {
    if !Truthy(parashaRef) then Ok(JNull)
    else if parashaRef.JStr? then Ok(JStr(Split(parashaRef.s, '-')[0]))
    else Err(NoAttribute(TypeName(parashaRef), "split"))
  }

  // ---------------------------------------------------------------------------
  // Commentaries

  /** `link.get('type') == 'commentary'` for a dict link. */
  predicate IsCommentary(link: Json) {
    link.JObj? && Lookup(link.members, "type") == Some(JStr("commentary"))
  }

  /** `link.get('sourceHeRef')` for a dict link. */
  function SourceHeRef(link: Json): Json
    requires link.JObj?
  {
    match Lookup(link.members, "sourceHeRef")
    case Some(v) => v
    case None => JNull
  }

  /** The number of commentary links. */
  function CountCommentaries(links: seq<Json>): nat {
    if links == [] then 0
    else (if IsCommentary(links[0]) then 1 else 0) + CountCommentaries(links[1..])
  }

  /**
   * The loop over the related links: the "sourceHeRef" of each commentary
   * link, in link order, or the AttributeError raised by the first link that
   * is not a dict.
   */
  function CommentaryRefs(links: seq<Json>): (r: Result<seq<Json>, Fault>)
    ensures r.Err? <==> exists k :: 0 <= k < |links| && !links[k].JObj?
    ensures r.Ok? ==> |r.value| == CountCommentaries(links)
  {
    if links == [] then Ok([])
    else
      var kind :- Get(links[0], "type", JNull);
      var rest :- CommentaryRefs(links[1..]);
      if kind == JStr("commentary") then Ok([SourceHeRef(links[0])] + rest)
      else Ok(rest)
  }

  /** One link contributes its "sourceHeRef" when it is a commentary, nothing otherwise. */
  lemma CommentaryRefsSingle(link: Json)
    requires link.JObj?
    ensures CommentaryRefs([link]) ==
              Ok(if IsCommentary(link) then [SourceHeRef(link)] else [])
  {
    assert [link][1..] == [];
    assert [SourceHeRef(link)] + [] == [SourceHeRef(link)];
  }

  /** The commentaries of two runs of links are those of the first run followed by those of the second. */
  lemma {:induction false} CommentaryRefsAppend(a: seq<Json>, b: seq<Json>)
    ensures CommentaryRefs(a + b) ==
              match CommentaryRefs(a)
              case Err(f) => Err(f)
              case Ok(x) =>
                (match CommentaryRefs(b)
                 case Err(g) => Err(g)
                 case Ok(y) => Ok(x + y))
  {
    if a == [] {
      assert a + b == b;
      if CommentaryRefs(b).Ok? {
        assert [] + CommentaryRefs(b).value == CommentaryRefs(b).value;
      }
    } else {
      assert (a + b)[0] == a[0];
      assert (a + b)[1..] == a[1..] + b;
      CommentaryRefsAppend(a[1..], b);
      var kind := Get(a[0], "type", JNull);
      if kind.Ok? && CommentaryRefs(a[1..]).Ok? && CommentaryRefs(b).Ok? {
        var x, y := CommentaryRefs(a[1..]).value, CommentaryRefs(b).value;
        assert [SourceHeRef(a[0])] + (x + y) == ([SourceHeRef(a[0])] + x) + y;
      }
    }
  }

  /** The references `found` so far, followed by those of the links still to scan. */
  function Then(found: seq<Json>, later: Result<seq<Json>, Fault>): Result<seq<Json>, Fault> {
    match later
    case Ok(refs) => Ok(found + refs)
    case Err(f) => Err(f)
  }

  /**
   * When every link is a dict, the scan succeeds; each reference it gives is
   * the "sourceHeRef" of a commentary link, and each commentary link gives
   * its "sourceHeRef".
   */
  lemma {:induction false} CommentaryRefsAreSourceRefs(links: seq<Json>)
    requires forall k :: 0 <= k < |links| ==> links[k].JObj?
    ensures CommentaryRefs(links).Ok?
    ensures forall x :: 0 <= x < |CommentaryRefs(links).value| ==>
              exists k :: 0 <= k < |links| && IsCommentary(links[k]) && CommentaryRefs(links).value[x] == SourceHeRef(links[k])
    ensures forall k :: 0 <= k < |links| && IsCommentary(links[k]) ==> SourceHeRef(links[k]) in CommentaryRefs(links).value
  {
    if links != [] {
      CommentaryRefsAreSourceRefs(links[1..]);
      var rest := CommentaryRefs(links[1..]).value;
      var refs := CommentaryRefs(links).value;
      assert refs == if IsCommentary(links[0]) then [SourceHeRef(links[0])] + rest else rest;
      forall x | 0 <= x < |refs|
        ensures exists k :: 0 <= k < |links| && IsCommentary(links[k]) && refs[x] == SourceHeRef(links[k])
      {
        if IsCommentary(links[0]) && x == 0 {
          assert IsCommentary(links[0]) && refs[0] == SourceHeRef(links[0]);
        } else {
          var y := if IsCommentary(links[0]) then x - 1 else x;
          assert refs[x] == rest[y];
          var j :| 0 <= j < |links[1..]| && IsCommentary(links[1..][j]) && rest[y] == SourceHeRef(links[1..][j]);
          assert links[1..][j] == links[j + 1];
        }
      }
      forall k | 0 <= k < |links| && IsCommentary(links[k])
        ensures SourceHeRef(links[k]) in refs
      {
        if k > 0 {
          assert links[k] == links[1..][k - 1];
        }
      }
    }
  }

  /** `get_commentaries(ref)` on a decoded related-content response. */
  function CommentariesOf(data: Json): (r: Result<seq<Json>, Fault>)
    ensures !Truthy(data) ==> r == Ok([])
    ensures data.JObj? && !HasKey(data.members, "links") ==> r == Ok([])
    ensures Truthy(data) && !(data.JObj? || data.JArr? || data.JStr?) ==> r == Err(NotContainer(TypeName(data)))
    ensures data.JObj? && Lookup(data.members, "links").Some? && Lookup(data.members, "links").value.JArr? ==>
              r == CommentaryRefs(Lookup(data.members, "links").value.items)
  {
    if !Truthy(data) then Ok([])
    else
      var present :- Contains(data, "links");
      if !present then Ok([])
      else
        var links :- GetItem(data, "links");
        var items :- Elements(links);
        CommentaryRefs(items)
  }

  /**
   * `get_commentaries(ref)`: the Hebrew source references of the commentary
   * links of the related-content response for `ref`.
   */
  method GetCommentaries(env: Env, ref: Json) returns (r: Result<seq<Json>, Fault>)
    ensures r == CommentariesOf(Response(env, RelatedUrl(env, ref)))
  {
    var data := Response(env, RelatedUrl(env, ref));
    var commentaries: seq<Json> := [];
    if Truthy(data) {
      var present :- Contains(data, "links");
      if present {
        var links :- GetItem(data, "links");
        var items :- Elements(links);
        var i := 0;
        assert items[0..] == items;
        if CommentaryRefs(items).Ok? {
          assert [] + CommentaryRefs(items).value == CommentaryRefs(items).value;
        }
        while i < |items|
          invariant 0 <= i <= |items|
          invariant CommentaryRefs(items) == Then(commentaries, CommentaryRefs(items[i..]))
        {
          var linked := items[i];
          assert items[i..][1..] == items[i + 1..];
          var kind :- Get(linked, "type", JNull);
          if kind == JStr("commentary") {
            if CommentaryRefs(items[i + 1..]).Ok? {
              var later := CommentaryRefs(items[i + 1..]).value;
              assert commentaries + ([SourceHeRef(linked)] + later) == (commentaries + [SourceHeRef(linked)]) + later;
            }
            commentaries := commentaries + [SourceHeRef(linked)];
          }
          i := i + 1;
        }
        assert items[i..] == [];
        assert commentaries + [] == commentaries;
      }
    }
    return Ok(commentaries);
  }
}
