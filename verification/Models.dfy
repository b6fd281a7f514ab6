/** internal/provider/models.go: the model catalogue and the choice of an endpoint. */
module Models {
  import opened Text

  const RESPONSES := "/responses"
  const CHAT_COMPLETIONS := "/chat/completions"
  const MESSAGES := "/v1/messages"

  /** `strings.ToLower`: all that is asked of it is that it leaves the three endpoint paths alone. */
  type Lower = string -> string

  predicate KeepsPaths(lower: Lower) {
    lower(RESPONSES) == RESPONSES && lower(CHAT_COMPLETIONS) == CHAT_COMPLETIONS && lower(MESSAGES) == MESSAGES
  }

  datatype Model = Model(
    id: string, name: string, vendor: string, version: string, objectType: string, endpoints: seq<string>)

  // ---- Endpoints ----

  /** The path an endpoint's spelling stands for. */
  function Canonical(lower: Lower, endpoint: string): Option<string> {
    var s := lower(Trim(endpoint));
    if s == RESPONSES || s == "responses" || s == "openai-responses" then Some(RESPONSES)
    else if s == CHAT_COMPLETIONS || s == "chat" || s == "chat-completions" then Some(CHAT_COMPLETIONS)
    else if s == MESSAGES || s == "messages" || s == "anthropic" then Some(MESSAGES)
    else None
  }

  /** The endpoints that are recognised, whatever their order, spelling and number. */
  function Recognised(lower: Lower, endpoints: seq<string>): set<string> {
    if endpoints == [] then {}
    else
      var last := Canonical(lower, endpoints[|endpoints| - 1]);
      Recognised(lower, endpoints[..|endpoints| - 1]) + (if last.Some? then {last.value} else {})
  }

  predicate Distinct(s: seq<string>) {
    forall i, j :: 0 <= i < j < |s| ==> s[i] != s[j]
  }

  /** Each recognised endpoint once, in the order of first mention. */
  function Normal(lower: Lower, endpoints: seq<string>): (out: seq<string>)
    ensures Distinct(out) && forall e :: e in out <==> e in Recognised(lower, endpoints)
  {
    if endpoints == [] then []
    else
      var front := Normal(lower, endpoints[..|endpoints| - 1]);
      var last := Canonical(lower, endpoints[|endpoints| - 1]);
      if last.None? || last.value in front then front else front + [last.value]
  }

  /** `normalizeEndpoints`. */
  method NormalizeEndpoints(lower: Lower, endpoints: seq<string>) returns (out: seq<string>)
    ensures out == Normal(lower, endpoints)
  {
    var seen: set<string> := {};
    out := [];
    for i := 0 to |endpoints|
      invariant out == Normal(lower, endpoints[..i])
      invariant forall e :: e in seen <==> e in out
    {
      assert endpoints[..i + 1][..i] == endpoints[..i];
      var endpoint := Canonical(lower, endpoints[i]);
      if endpoint.None? || endpoint.value in seen {
        continue;
      }
      seen := seen + {endpoint.value};
      out := out + [endpoint.value];
    }
    assert endpoints[..|endpoints|] == endpoints;
  }

  predicate IsPath(e: string) {
    e == RESPONSES || e == CHAT_COMPLETIONS || e == MESSAGES
  }

  lemma PathsCanonical(lower: Lower, e: string)
    requires KeepsPaths(lower) && IsPath(e)
    ensures Canonical(lower, e) == Some(e)
  {
    TrimShape(e);
    assert Trimmed(e);
  }

  lemma {:induction false} NormalSnoc(lower: Lower, front: seq<string>, last: string)
    requires Canonical(lower, last) == Some(last) && last !in front && Normal(lower, front) == front
    ensures Normal(lower, front + [last]) == front + [last]
  {
    assert (front + [last])[..|front|] == front;
  }

  /** A list of distinct paths is normal already. */
  lemma {:induction false} NormalFixed(lower: Lower, endpoints: seq<string>)
    requires Distinct(endpoints)
    requires forall i :: 0 <= i < |endpoints| ==> Canonical(lower, endpoints[i]) == Some(endpoints[i])
    ensures Normal(lower, endpoints) == endpoints
    decreases |endpoints|
  {
    if endpoints != [] {
      var front, last := endpoints[..|endpoints| - 1], endpoints[|endpoints| - 1];
      NormalFixed(lower, front);
      assert endpoints == front + [last];
      NormalSnoc(lower, front, last);
    }
  }

  lemma {:induction false} NormalPaths(lower: Lower, endpoints: seq<string>)
    ensures forall e :: e in Normal(lower, endpoints) ==> IsPath(e)
    decreases |endpoints|
  {
    if endpoints != [] {
      NormalPaths(lower, endpoints[..|endpoints| - 1]);
    }
  }

  /** `specialResponsesModel`. */
  predicate Special(lower: Lower, id: string) {
    lower(Trim(id)) == "gpt-5.6-sol" || lower(Trim(id)) == "gpt-5.6-terra"
  }

  /** `endpointPreference`. */
  function Preference(openai: bool): seq<string> {
    if openai then [CHAT_COMPLETIONS, RESPONSES, MESSAGES] else [RESPONSES, CHAT_COMPLETIONS, MESSAGES]
  }

  /** The first preferred endpoint in a set. */
  function FirstIn(preferred: seq<string>, offered: set<string>): Option<string> {
    if preferred == [] then None else if preferred[0] in offered then Some(preferred[0]) else FirstIn(preferred[1..],
        offered)
  }

  /** An endpoint's three spellings, up to letter case and white space around them. */
  predicate Spells(lower: Lower, endpoint: string, path: string) {
    var s := lower(Trim(endpoint));
    || (path == "/responses" && s in {"/responses", "responses", "openai-responses"})
    || (path == "/chat/completions" && s in {"/chat/completions", "chat", "chat-completions"})
    || (path == "/v1/messages" && s in {"/v1/messages", "messages", "anthropic"})
  }

  predicate Offers(lower: Lower, endpoints: seq<string>, path: string) {
    exists i :: 0 <= i < |endpoints| && Spells(lower, endpoints[i], path)
  }

  lemma OffersFront(lower: Lower, endpoints: seq<string>, path: string)
    requires endpoints != []
    ensures var front, last := endpoints[..|endpoints| - 1], endpoints[|endpoints| - 1];
            Offers(lower, endpoints, path) <==> Offers(lower, front, path) || Spells(lower, last, path)
  {
    var front := endpoints[..|endpoints| - 1];
    assert forall i :: 0 <= i < |front| ==> front[i] == endpoints[i];
  }

  lemma SpellingCounts(lower: Lower, endpoint: string, path: string)
    ensures Canonical(lower, endpoint) == Some(path) <==> Spells(lower, endpoint, path)
  {
    assert |RESPONSES| == 10 && |CHAT_COMPLETIONS| == 17 && |MESSAGES| == 12;
  }

  /** Recognised means spelled in some way or other, anywhere in the list. */
  lemma {:induction false} RecognisedIs(lower: Lower, endpoints: seq<string>, e: string)
    ensures e in Recognised(lower, endpoints) <==> Offers(lower, endpoints, e)
    decreases |endpoints|
  {
    if endpoints != [] {
      RecognisedIs(lower, endpoints[..|endpoints| - 1], e);
      SpellingCounts(lower, endpoints[|endpoints| - 1], e);
      OffersFront(lower, endpoints, e);
    }
  }

  /** What is chosen: the two special models answer on the Responses endpoint; else a Chat Completions
      client gets Chat Completions before Responses and everyone else Responses before it, the Messages
      endpoint comes last, and nothing is chosen when nothing is offered. */
  ghost predicate Chosen(lower: Lower, m: Model, openai: bool, out: Option<string>) {
    if lower(Trim(m.id)) in {"gpt-5.6-sol", "gpt-5.6-terra"} then out == Some("/responses")
    else
      var responses := Offers(lower, m.endpoints, "/responses");
      var chat := Offers(lower, m.endpoints, "/chat/completions");
      && (out == Some("/chat/completions") <==> chat && (openai || !responses))
      && (out == Some("/responses") <==> responses && !(openai && chat))
      && (out == Some("/v1/messages") <==> Offers(lower, m.endpoints, "/v1/messages") && !chat && !responses)
      && (out.None? <==> forall path :: !Offers(lower, m.endpoints, path))
  }

  function Choice(lower: Lower, m: Model, openai: bool): Option<string> {
    if Special(lower, m.id) then Some(RESPONSES) else FirstIn(Preference(openai), Recognised(lower, m.endpoints))
  }

  lemma {:induction false} ChoiceIs(lower: Lower, m: Model, openai: bool)
    ensures Chosen(lower, m, openai, Choice(lower, m, openai))
  {
    var offered := Recognised(lower, m.endpoints);
    RecognisedIs(lower, m.endpoints, RESPONSES);
    RecognisedIs(lower, m.endpoints, CHAT_COMPLETIONS);
    RecognisedIs(lower, m.endpoints, MESSAGES);
    var a, b, c := FirstOfThree(openai, offered);
    if forall path :: !Offers(lower, m.endpoints, path) {
      assert RESPONSES !in offered && CHAT_COMPLETIONS !in offered && MESSAGES !in offered;
    } else {
      var path :| Offers(lower, m.endpoints, path);
      assert IsPath(path);
      assert path in offered;
    }
  }

  lemma {:induction false} FirstOfThree(openai: bool, offered: set<string>) returns (a: string, b: string, c: string)
    ensures Preference(openai) == [a, b, c]
    ensures FirstIn([a, b, c], offered)
            == if a in offered then Some(a)
               else if b in offered then Some(b)
               else if c in offered then Some(c) else None
  {
    a, b, c := Preference(openai)[0], Preference(openai)[1], MESSAGES;
    assert [c][1..] == [] && FirstIn([], offered) == None;
    assert [b, c][1..] == [c];
    assert FirstIn([b, c], offered) == if b in offered then Some(b) else FirstIn([c], offered);
    assert [a, b, c][1..] == [b, c];
  }

  /** `selectEndpoint`: the choice depends on the model's name and the set of recognised endpoints only. */
  method SelectEndpoint(lower: Lower, m: Model, openai: bool) returns (out: Option<string>)
    ensures out == Choice(lower, m, openai)
  {
    if Special(lower, m.id) {
      return Some(RESPONSES);
    }
    var endpoints := NormalizeEndpoints(lower, m.endpoints);
    ghost var offered := Recognised(lower, m.endpoints);
    var preferred := Preference(openai);
    for i := 0 to |preferred|
      invariant FirstIn(preferred, offered) == FirstIn(preferred[i..], offered)
    {
      for j := 0 to |endpoints|
        invariant forall k :: 0 <= k < j ==> endpoints[k] != preferred[i]
      {
        if endpoints[j] == preferred[i] {
          assert preferred[i] in endpoints;
          return Some(preferred[i]);
        }
      }
      assert preferred[i] !in endpoints;
    }
    return None;
  }

  lemma {:induction false} NoneIn(preferred: seq<string>, offered: set<string>)
    ensures FirstIn(preferred, offered).None? <==> forall e :: e in preferred ==> e !in offered
    decreases |preferred|
  {
    if preferred != [] {
      NoneIn(preferred[1..], offered);
      assert forall e :: e in preferred <==> e == preferred[0] || e in preferred[1..];
    }
  }

  lemma {:induction false} RecognisedPaths(lower: Lower, endpoints: seq<string>)
    ensures forall e :: e in Recognised(lower, endpoints) ==> IsPath(e)
    decreases |endpoints|
  {
    if endpoints != [] {
      RecognisedPaths(lower, endpoints[..|endpoints| - 1]);
    }
  }

  /** There is a choice unless nothing is recognised. */
  lemma {:induction false} ChoiceExists(lower: Lower, endpoints: seq<string>, openai: bool)
    ensures FirstIn(Preference(openai), Recognised(lower, endpoints)).None? <==> Recognised(lower, endpoints) == {}
  {
    var preferred, offered := Preference(openai), Recognised(lower, endpoints);
    RecognisedPaths(lower, endpoints);
    NoneIn(preferred, offered);
    assert preferred[0] in preferred && preferred[1] in preferred && preferred[2] in preferred;
  }

  // ---- The catalogue ----

  /** The order of Go strings. */
  predicate Less(a: string, b: string) {
    b != "" && (a == "" || a[0] < b[0] || (a[0] == b[0] && Less(a[1..], b[1..])))
  }

  lemma {:induction false} LessTotal(a: string, b: string)
    ensures Less(a, b) || a == b || Less(b, a)
    ensures !(Less(a, b) && Less(b, a)) && (a == b ==> !Less(a, b))
  {
    if a != "" && b != "" && a[0] == b[0] {
      LessTotal(a[1..], b[1..]);
      assert a == [a[0]] + a[1..] && b == [b[0]] + b[1..];
    }
  }

  lemma {:induction false} LessTransitive(a: string, b: string, c: string)
    requires Less(a, b) && Less(b, c)
    ensures Less(a, c)
  {
    if a != "" && a[0] == b[0] && b[0] == c[0] {
      LessTransitive(a[1..], b[1..], c[1..]);
    }
  }

  function WithSpecial(lower: Lower, id: string, endpoints: seq<string>): seq<string> {
    if Special(lower, id) && RESPONSES !in endpoints then endpoints + [RESPONSES] else endpoints
  }

  /** What `normalizeModels` makes of one model. */
  function Clean(lower: Lower, m: Model): Model {
    Model(Trim(m.id), Trim(m.name), Trim(m.vendor), Trim(m.version), Trim(m.objectType),
          WithSpecial(lower, Trim(m.id), Normal(lower, m.endpoints)))
  }

  function KeyOf(lower: Lower, m: Model): string {
    lower(Trim(m.id))
  }

  predicate Increasing(lower: Lower, models: seq<Model>) {
    forall i, j :: 0 <= i < j < |models| ==> Less(KeyOf(lower, models[i]), KeyOf(lower, models[j]))
  }

  /** The first model with its ID, which is not blank. */
  predicate IsFirst(lower: Lower, models: seq<Model>, i: int) {
    0 <= i < |models| && Trim(models[i].id) != ""
    && forall k :: 0 <= k < i ==> Trim(models[k].id) == "" || KeyOf(lower, models[k]) != KeyOf(lower, models[i])
  }

  /** The catalogue: in strictly increasing order of lower-cased ID, the cleaned first model of each ID. */
  ghost predicate IsCatalogue(lower: Lower, models: seq<Model>, out: seq<Model>) {
    && Increasing(lower, out)
    && forall m :: m in out <==> exists i :: IsFirst(lower, models, i) && Clean(lower, models[i]) == m
  }

  predicate Excluded(lower: Lower, m: Model, prefixes: seq<string>) {
    exists p :: p in prefixes && HasPrefix(lower(m.id), p)
  }

  // ---- Sorting ----

  function Insert(lower: Lower, m: Model, sorted: seq<Model>): seq<Model> {
    if sorted == [] then [m]
    else if Less(KeyOf(lower, m), KeyOf(lower, sorted[0])) then [m] + sorted
    else [sorted[0]] + Insert(lower, m, sorted[1..])
  }

  /** `sort.SliceStable` by key. */
  function StableSort(lower: Lower, models: seq<Model>): seq<Model> {
    if models == [] then []
    else Insert(lower, models[|models| - 1], StableSort(lower, models[..|models| - 1]))
  }

  predicate KeysDiffer(lower: Lower, models: seq<Model>) {
    forall i, j :: 0 <= i < j < |models| ==> KeyOf(lower, models[i]) != KeyOf(lower, models[j])
  }

  lemma {:induction false} InsertMembers(lower: Lower, m: Model, sorted: seq<Model>)
    ensures forall x :: x in Insert(lower, m, sorted) <==> x == m || x in sorted
    decreases |sorted|
  {
    if sorted != [] && !Less(KeyOf(lower, m), KeyOf(lower, sorted[0])) {
      InsertMembers(lower, m, sorted[1..]);
      assert forall x :: x in sorted <==> x == sorted[0] || x in sorted[1..];
    }
  }

  /** Every key of the list lies above. */
  predicate Below(lower: Lower, key: string, models: seq<Model>) {
    forall x :: x in models ==> Less(key, KeyOf(lower, x))
  }

  lemma IncreasingCons(lower: Lower, m: Model, rest: seq<Model>)
    ensures Increasing(lower, [m] + rest) <==> Increasing(lower, rest) && Below(lower, KeyOf(lower, m), rest)
  {
    var all := [m] + rest;
    assert forall i :: 0 <= i < |rest| ==> all[i + 1] == rest[i];
    if Increasing(lower, all) {
      forall i, j | 0 <= i < j < |rest| ensures Less(KeyOf(lower, rest[i]), KeyOf(lower, rest[j])) {
        assert all[i + 1] == rest[i] && all[j + 1] == rest[j];
      }
      forall x | x in rest ensures Less(KeyOf(lower, m), KeyOf(lower, x)) {
        var j :| 0 <= j < |rest| && rest[j] == x;
        assert all[0] == m && all[j + 1] == x;
      }
    }
    if Increasing(lower, rest) && Below(lower, KeyOf(lower, m), rest) {
      forall i, j | 0 <= i < j < |all| ensures Less(KeyOf(lower, all[i]), KeyOf(lower, all[j])) {
        assert all[j] == rest[j - 1] && rest[j - 1] in rest && (i > 0 ==> all[i] == rest[i - 1]);
      }
    }
  }

  lemma {:induction false} InsertIncreasing(lower: Lower, m: Model, sorted: seq<Model>)
    requires Increasing(lower, sorted) && forall x :: x in sorted ==> KeyOf(lower, x) != KeyOf(lower, m)
    ensures Increasing(lower, Insert(lower, m, sorted))
    decreases |sorted|
  {
    if sorted == [] {
    } else {
      var first, rest := sorted[0], sorted[1..];
      assert sorted == [first] + rest && first in sorted;
      IncreasingCons(lower, first, rest);
      if Less(KeyOf(lower, m), KeyOf(lower, first)) {
        forall x | x in sorted ensures Less(KeyOf(lower, m), KeyOf(lower, x)) {
          if x != first {
            LessTransitive(KeyOf(lower, m), KeyOf(lower, first), KeyOf(lower, x));
          }
        }
        IncreasingCons(lower, m, sorted);
      } else {
        LessTotal(KeyOf(lower, m), KeyOf(lower, first));
        InsertIncreasing(lower, m, rest);
        InsertMembers(lower, m, rest);
        IncreasingCons(lower, first, Insert(lower, m, rest));
      }
    }
  }

  lemma {:induction false} SortSorts(lower: Lower, models: seq<Model>)
    requires KeysDiffer(lower, models)
    ensures Increasing(lower, StableSort(lower, models))
    ensures forall x :: x in StableSort(lower, models) <==> x in models
    decreases |models|
  {
    if models != [] {
      var front, last := models[..|models| - 1], models[|models| - 1];
      SortSorts(lower, front);
      InsertMembers(lower, last, StableSort(lower, front));
      assert models == front + [last];
      InsertIncreasing(lower, last, StableSort(lower, front));
    }
  }

  // ---- Normalise and filter ----

  lemma CleanKey(lower: Lower, m: Model)
    ensures KeyOf(lower, Clean(lower, m)) == KeyOf(lower, m)
    ensures Trim(Clean(lower, m).id) == Clean(lower, m).id == Trim(m.id)
  {
    TrimShape(m.id);
  }

  /** The models collected from a prefix: the cleaned first one of each ID. */
  ghost predicate Collected(lower: Lower, models: seq<Model>, n: nat, out: seq<Model>) {
    && KeysDiffer(lower, out)
    && (forall m :: m in out <==> exists i :: i < n && IsFirst(lower, models, i) && Clean(lower, models[i]) == m)
  }

  /** The keys seen are the keys of the models collected, and of all models with an ID so far. */
  ghost predicate SeenOk(lower: Lower, models: seq<Model>, n: nat, seen: set<string>) {
    n <= |models|
    && forall k :: k in seen <==> exists i :: 0 <= i < n && Trim(models[i].id) != "" && KeyOf(lower, models[i]) == k
  }

  lemma CollectOne(lower: Lower, models: seq<Model>, n: nat, out: seq<Model>, seen: set<string>)
    requires n < |models| && Collected(lower, models, n, out) && SeenOk(lower, models, n, seen)
    requires Trim(models[n].id) != "" && KeyOf(lower, models[n]) !in seen
    ensures Collected(lower, models, n + 1, out + [Clean(lower, models[n])])
  {
    assert IsFirst(lower, models, n);
    var m := Clean(lower, models[n]);
    CleanKey(lower, models[n]);
    forall x | x in out ensures KeyOf(lower, x) != KeyOf(lower, m) {
      var i :| i < n && IsFirst(lower, models, i) && Clean(lower, models[i]) == x;
      CleanKey(lower, models[i]);
    }
    assert forall i :: 0 <= i < |out| ==> out[i] in out;
  }

  lemma CollectNone(lower: Lower, models: seq<Model>, n: nat, out: seq<Model>, seen: set<string>)
    requires n < |models| && Collected(lower, models, n, out) && SeenOk(lower, models, n, seen)
    requires Trim(models[n].id) == "" || KeyOf(lower, models[n]) in seen
    ensures Collected(lower, models, n + 1, out)
  {
    assert !IsFirst(lower, models, n);
  }

  /** `normalizeModels`. */
  method NormalizeModels(lower: Lower, models: seq<Model>) returns (out: seq<Model>)
    ensures IsCatalogue(lower, models, out)
  {
    var seen: set<string> := {};
    out := [];
    for n := 0 to |models|
      invariant Collected(lower, models, n, out) && SeenOk(lower, models, n, seen)
    {
      var m := models[n];
      var id := Trim(m.id);
      if id == "" {
        CollectNone(lower, models, n, out, seen);
        continue;
      }
      var key := lower(id);
      if key in seen {
        CollectNone(lower, models, n, out, seen);
        continue;
      }
      CollectOne(lower, models, n, out, seen);
      seen := seen + {key};
      var endpoints := NormalizeEndpoints(lower, m.endpoints);
      if Special(lower, id) && RESPONSES !in endpoints {
        endpoints := endpoints + [RESPONSES];
      }
      out := out + [Model(id, Trim(m.name), Trim(m.vendor), Trim(m.version), Trim(m.objectType), endpoints)];
    }
    SortSorts(lower, out);
    out := StableSort(lower, out);
  }

  function Kept(lower: Lower, models: seq<Model>, prefixes: seq<string>): seq<Model> {
    if models == [] then []
    else Kept(lower, models[..|models| - 1], prefixes)
         + if Excluded(lower, models[|models| - 1], prefixes) then [] else [models[|models| - 1]]
  }

  /** `filterModels`. */
  method FilterModels(lower: Lower, models: seq<Model>, prefixes: seq<string>) returns (out: seq<Model>)
    ensures out == Kept(lower, models, prefixes)
  {
    if |prefixes| == 0 {
      KeptAll(lower, models, prefixes);
      return models;
    }
    out := [];
    for i := 0 to |models|
      invariant out == Kept(lower, models[..i], prefixes)
    {
      assert models[..i + 1][..i] == models[..i];
      var excluded := false;
      for j := 0 to |prefixes|
        invariant !excluded && forall k :: 0 <= k < j ==> !HasPrefix(lower(models[i].id), prefixes[k])
      {
        if HasPrefix(lower(models[i].id), prefixes[j]) {
          excluded := true;
          break;
        }
      }
      if !excluded {
        out := out + [models[i]];
      }
    }
    assert models[..|models|] == models;
  }

  lemma {:induction false} KeptAll(lower: Lower, models: seq<Model>, prefixes: seq<string>)
    requires forall m :: m in models ==> !Excluded(lower, m, prefixes)
    ensures Kept(lower, models, prefixes) == models
    decreases |models|
  {
    if models != [] {
      KeptAll(lower, models[..|models| - 1], prefixes);
      assert models == models[..|models| - 1] + [models[|models| - 1]];
    }
  }

  // ---- The catalogue is determined, and a fixed point ----

  lemma HeadIn<T>(s: seq<T>)
    requires s != []
    ensures s[0] in s
  {
  }

  /** Two increasing lists with the same members are the same list. */
  lemma {:induction false} IncreasingUnique(lower: Lower, a: seq<Model>, b: seq<Model>)
    requires Increasing(lower, a) && Increasing(lower, b) && forall m :: m in a <==> m in b
    ensures a == b
    decreases |a|
  {
    if a == [] {
      if b != [] {
        HeadIn(b);
        assert false;
      }
    } else {
      assert a[0] in b;
      var j :| 0 <= j < |b| && b[j] == a[0];
      assert b[0] in a;
      var i :| 0 <= i < |a| && a[i] == b[0];
      LessTotal(KeyOf(lower, a[0]), KeyOf(lower, b[0]));
      assert a[0] == b[0];
      var x, y := a[1..], b[1..];
      assert a == [a[0]] + x && b == [b[0]] + y;
      IncreasingCons(lower, a[0], x);
      IncreasingCons(lower, b[0], y);
      LessTotal(KeyOf(lower, a[0]), KeyOf(lower, a[0]));
      assert forall m :: m in x <==> m in a && m != a[0];
      assert forall m :: m in y <==> m in b && m != b[0];
      IncreasingUnique(lower, x, y);
    }
  }

  /** There is only one catalogue of a list of models. */
  lemma CatalogueUnique(lower: Lower, models: seq<Model>, a: seq<Model>, b: seq<Model>)
    requires IsCatalogue(lower, models, a) && IsCatalogue(lower, models, b)
    ensures a == b
  {
    IncreasingUnique(lower, a, b);
  }

  lemma CleanTwice(lower: Lower, m: Model)
    requires KeepsPaths(lower)
    ensures Clean(lower, Clean(lower, m)) == Clean(lower, m)
  {
    TrimShape(m.id);
    TrimShape(m.name);
    TrimShape(m.vendor);
    TrimShape(m.version);
    TrimShape(m.objectType);
    NormalPaths(lower, m.endpoints);
    var endpoints := WithSpecial(lower, Trim(m.id), Normal(lower, m.endpoints));
    forall i | 0 <= i < |endpoints| ensures Canonical(lower, endpoints[i]) == Some(endpoints[i]) {
      assert endpoints[i] in endpoints;
      PathsCanonical(lower, endpoints[i]);
    }
    NormalFixed(lower, endpoints);
  }

  /** Models as the catalogue holds them. */
  predicate AllClean(lower: Lower, models: seq<Model>) {
    forall m :: m in models ==> Trim(m.id) != "" && Clean(lower, m) == m
  }

  /** Increasing clean models are their own catalogue. */
  lemma CleanIsCatalogue(lower: Lower, models: seq<Model>)
    requires Increasing(lower, models) && AllClean(lower, models)
    ensures IsCatalogue(lower, models, models)
  {
    forall i | 0 <= i < |models| ensures IsFirst(lower, models, i) && Clean(lower, models[i]) == models[i] {
      assert models[i] in models;
      forall k | 0 <= k < i ensures KeyOf(lower, models[k]) != KeyOf(lower, models[i]) {
        LessTotal(KeyOf(lower, models[k]), KeyOf(lower, models[i]));
      }
    }
  }

  lemma CatalogueClean(lower: Lower, models: seq<Model>, out: seq<Model>)
    requires KeepsPaths(lower) && IsCatalogue(lower, models, out)
    ensures AllClean(lower, out)
  {
    forall m | m in out ensures Trim(m.id) != "" && Clean(lower, m) == m {
      var i :| IsFirst(lower, models, i) && Clean(lower, models[i]) == m;
      CleanKey(lower, models[i]);
      CleanTwice(lower, models[i]);
    }
  }

  // ---- The catalogue, field by field ----

  /** They agree up to n; there the one ends, or has the smaller character. */
  predicate LessAt(a: string, b: string, n: nat) {
    n <= |a| && n < |b| && a[..n] == b[..n] && (n == |a| || a[n] < b[n])
  }

  /** The order of Go strings: one is a prefix of the other, or they differ first in a smaller character. */
  lemma {:induction false} LessIs(a: string, b: string)
    ensures Less(a, b) <==> exists n: nat :: LessAt(a, b, n)
  {
    forall n: nat | LessAt(a, b, n) && n > 0
      ensures a != "" && a[0] == b[0] && LessAt(a[1..], b[1..], n - 1)
    {
      assert a[..n][0] == b[..n][0];
      assert a[1..][..n - 1] == a[..n][1..] && b[1..][..n - 1] == b[..n][1..];
    }
    if a != "" && b != "" && a[0] == b[0] {
      LessIs(a[1..], b[1..]);
      if Less(a[1..], b[1..]) {
        var n: nat :| LessAt(a[1..], b[1..], n);
        assert a[..n + 1] == [a[0]] + a[1..][..n] && b[..n + 1] == [b[0]] + b[1..][..n];
        assert LessAt(a, b, n + 1);
      }
    } else {
      assert Less(a, b) ==> LessAt(a, b, 0);
    }
  }

  /** Mentioned earlier: where the one is spelled, the other has been spelled already. */
  predicate MentionedFirst(lower: Lower, endpoints: seq<string>, a: string, b: string) {
    forall k :: 0 <= k < |endpoints| && Spells(lower, endpoints[k], b) ==> Offers(lower, endpoints[..k], a)
  }

  /** A model as the catalogue holds it: trimmed; with every path it offers once, in the order of first
      mention; and the special models answer on the Responses endpoint even when they do not offer it. */
  ghost predicate Cleaned(lower: Lower, m: Model, c: Model) {
    && c.id == Trim(m.id) && c.name == Trim(m.name) && c.vendor == Trim(m.vendor) && c.version == Trim(m.version)
    && c.objectType == Trim(m.objectType) && Distinct(c.endpoints)
    && (forall path :: path in c.endpoints <==>
          Offers(lower, m.endpoints, path)
          || (path == "/responses" && lower(Trim(m.id)) in {"gpt-5.6-sol", "gpt-5.6-terra"}))
    && forall i, j :: 0 <= i < j < |c.endpoints| ==>
         MentionedFirst(lower, m.endpoints, c.endpoints[i], c.endpoints[j])
  }

  lemma {:induction false} NormalOrder(lower: Lower, endpoints: seq<string>) returns (out: seq<string>)
    ensures out == Normal(lower, endpoints)
    ensures forall i, j :: 0 <= i < j < |out| ==> MentionedFirst(lower, endpoints, out[i], out[j])
    decreases |endpoints|
  {
    out := Normal(lower, endpoints);
    if endpoints != [] {
      var front := endpoints[..|endpoints| - 1];
      var a := NormalOrder(lower, front);
      forall i, j | 0 <= i < j < |out| ensures MentionedFirst(lower, endpoints, out[i], out[j]) {
        assert out[i] == a[i] && a[i] in a;
        RecognisedIs(lower, front, a[i]);
        RecognisedIs(lower, front, out[j]);
        if j < |a| {
          assert out[j] == a[j];
          MentionedLonger(lower, endpoints, a[i], a[j]);
        } else {
          MentionedNever(lower, endpoints, a[i], out[j]);
        }
      }
    }
  }

  lemma MentionedLonger(lower: Lower, endpoints: seq<string>, a: string, b: string)
    requires endpoints != [] && Offers(lower, endpoints[..|endpoints| - 1], a)
    requires MentionedFirst(lower, endpoints[..|endpoints| - 1], a, b)
    ensures MentionedFirst(lower, endpoints, a, b)
  {
    var front := endpoints[..|endpoints| - 1];
    assert forall k :: 0 <= k <= |front| ==> endpoints[..k] == front[..k];
    assert front[..|front|] == front;
    assert forall k :: 0 <= k < |front| ==> endpoints[k] == front[k];
  }

  lemma MentionedNever(lower: Lower, endpoints: seq<string>, a: string, b: string)
    requires endpoints != [] && Offers(lower, endpoints[..|endpoints| - 1], a)
    requires !Offers(lower, endpoints[..|endpoints| - 1], b)
    ensures MentionedFirst(lower, endpoints, a, b)
  {
    var front := endpoints[..|endpoints| - 1];
    assert forall k :: 0 <= k < |front| ==> endpoints[k] == front[k];
    assert endpoints[..|front|] == front;
  }

  lemma {:induction false} EndpointsTell(lower: Lower, endpoints: seq<string>) returns (out: seq<string>)
    ensures out == Normal(lower, endpoints) && Distinct(out)
    ensures forall path :: path in out <==> Offers(lower, endpoints, path)
    ensures forall i, j :: 0 <= i < j < |out| ==> MentionedFirst(lower, endpoints, out[i], out[j])
  {
    out := NormalOrder(lower, endpoints);
    forall path ensures path in out <==> Offers(lower, endpoints, path) {
      RecognisedIs(lower, endpoints, path);
    }
  }

  lemma NotOffered(lower: Lower, endpoints: seq<string>, path: string)
    requires !Offers(lower, endpoints, path)
    ensures forall a :: MentionedFirst(lower, endpoints, a, path)
  {
  }

  lemma {:induction false} CleanTells(lower: Lower, m: Model)
    ensures Cleaned(lower, m, Clean(lower, m))
  {
    var out := EndpointsTell(lower, m.endpoints);
    TrimShape(m.id);
    if RESPONSES !in out {
      NotOffered(lower, m.endpoints, RESPONSES);
    }
  }

  lemma {:induction false} FirstOfKey(lower: Lower, models: seq<Model>, i: nat) returns (k: nat)
    requires i < |models| && Trim(models[i].id) != ""
    ensures IsFirst(lower, models, k) && KeyOf(lower, models[k]) == KeyOf(lower, models[i])
    decreases i
  {
    if IsFirst(lower, models, i) {
      k := i;
    } else {
      var j :| 0 <= j < i && Trim(models[j].id) != "" && KeyOf(lower, models[j]) == KeyOf(lower, models[i]);
      k := FirstOfKey(lower, models, j);
    }
  }

  /** An entry is what becomes of a model with an ID, before which no other has that ID. */
  ghost predicate FromFirst(lower: Lower, models: seq<Model>, i: nat, c: Model) {
    && i < |models| && Cleaned(lower, models[i], c) && c.id != ""
    && forall k :: 0 <= k < i && Trim(models[k].id) != "" ==> lower(Trim(models[k].id)) != lower(c.id)
  }

  /** What a catalogue says of the models: in strictly increasing order of lower-cased ID, every entry is
      what becomes of the first model with its ID, and every model with an ID has an entry. */
  lemma CatalogueReads(lower: Lower, models: seq<Model>, out: seq<Model>)
    requires IsCatalogue(lower, models, out)
    ensures forall i, j :: 0 <= i < j < |out| ==> Less(lower(out[i].id), lower(out[j].id))
    ensures forall c :: c in out ==> exists i: nat :: FromFirst(lower, models, i, c)
    ensures forall m :: m in models && Trim(m.id) != "" ==> exists c :: c in out && lower(c.id) == lower(Trim(m.id))
  {
    forall c | c in out
      ensures Trim(c.id) == c.id
      ensures exists i: nat :: FromFirst(lower, models, i, c)
    {
      var i :| IsFirst(lower, models, i) && Clean(lower, models[i]) == c;
      CleanKey(lower, models[i]);
      CleanTells(lower, models[i]);
      assert FromFirst(lower, models, i, c);
    }
    forall i | 0 <= i < |out| ensures KeyOf(lower, out[i]) == lower(out[i].id) {
      assert out[i] in out;
    }
    forall m | m in models && Trim(m.id) != "" ensures exists c :: c in out && lower(c.id) == lower(Trim(m.id)) {
      var i :| 0 <= i < |models| && models[i] == m;
      var k := FirstOfKey(lower, models, i);
      var c := Clean(lower, models[k]);
      CleanKey(lower, models[k]);
      assert c in out;
    }
  }

  lemma {:induction false} KeptMembers(lower: Lower, models: seq<Model>, prefixes: seq<string>)
    requires Increasing(lower, models)
    ensures Increasing(lower, Kept(lower, models, prefixes))
    ensures forall m :: m in Kept(lower, models, prefixes) <==> m in models && !Excluded(lower, m, prefixes)
    decreases |models|
  {
    if models != [] {
      var front, last := models[..|models| - 1], models[|models| - 1];
      KeptMembers(lower, front, prefixes);
      assert models == front + [last];
      var kept := Kept(lower, front, prefixes);
      forall x | x in kept ensures Less(KeyOf(lower, x), KeyOf(lower, last)) {
        assert x in front;
      }
      assert forall i :: 0 <= i < |kept| ==> kept[i] in kept;
    }
  }

  /** What is stored: the catalogue without the excluded prefixes is in strictly increasing order of
      lower-cased ID, holds the cleaned first model of each ID that is not excluded and nothing else,
      and neither normalising nor filtering it again changes it. */
  lemma {:induction false} CatalogueStored(lower: Lower, models: seq<Model>, out: seq<Model>, prefixes: seq<string>)
    requires KeepsPaths(lower) && IsCatalogue(lower, models, out)
    ensures var kept := Kept(lower, out, prefixes);
            && Increasing(lower, kept)
            && (forall m :: m in kept <==>
                  (forall p :: p in prefixes ==> !(p <= lower(m.id)))
                  && exists i :: IsFirst(lower, models, i) && Clean(lower, models[i]) == m)
            && IsCatalogue(lower, kept, kept) && (forall again :: IsCatalogue(lower, kept, again) ==> again == kept)
            && Kept(lower, kept, prefixes) == kept
  {
    var kept := Kept(lower, out, prefixes);
    KeptMembers(lower, out, prefixes);
    CatalogueClean(lower, models, out);
    CleanIsCatalogue(lower, kept);
    forall again | IsCatalogue(lower, kept, again) ensures again == kept {
      CatalogueUnique(lower, kept, again, kept);
    }
    KeptAll(lower, kept, prefixes);
  }
}
