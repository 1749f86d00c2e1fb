// The secret getter, which fetches each Secret once per call however many of
// its keys are asked for.
module SecretCache {
  import opened Sources
  import opened Strings

  // A Secret's data; a missing key reads as "".
  type Secret = map<string, string>

  // How the API server answers the n-th fetch of a call for a name. The store
  // may change between fetches.
  type Answers = (nat, string) -> Result<Secret, GoError>

  function Read(secret: Secret, key: string): string {
    if key in secret then secret[key] else ""
  }

  // The distinct names referred to, in order of first mention.
  function Names(refs: seq<Option<SecretKey>>): seq<string> {
    if refs == [] then []
    else
      var earlier := Names(refs[..|refs| - 1]);
      match refs[|refs| - 1]
      case None => earlier
      case Some(ref) => if ref.name in earlier then earlier else earlier + [ref.name]
  }

  lemma NamesNext(refs: seq<Option<SecretKey>>, i: nat)
    requires i < |refs|
    ensures Names(refs[..i + 1]) == match refs[i]
      case None => Names(refs[..i])
      case Some(ref) => if ref.name in Names(refs[..i]) then Names(refs[..i]) else Names(refs[..i]) + [ref.name]
  {
    assert refs[..i + 1][..i] == refs[..i];
  }

  lemma {:induction false} NamesPrefix(refs: seq<Option<SecretKey>>, i: nat)
    requires i <= |refs|
    ensures Names(refs[..i]) <= Names(refs)
    decreases |refs| - i
  {
    if i < |refs| {
      NamesNext(refs, i);
      NamesPrefix(refs, i + 1);
    } else {
      assert refs[..i] == refs;
    }
  }

  predicate Mentions(refs: seq<Option<SecretKey>>, n: string) {
    exists k :: 0 <= k < |refs| && refs[k].Some? && refs[k].value.name == n
  }

  lemma MentionsNext(refs: seq<Option<SecretKey>>, n: string)
    requires refs != []
    ensures var last := |refs| - 1;
      Mentions(refs, n) <==> Mentions(refs[..last], n) || (refs[last].Some? && refs[last].value.name == n)
  {
    var last := |refs| - 1;
    if Mentions(refs, n) {
      var k :| 0 <= k < |refs| && refs[k].Some? && refs[k].value.name == n;
      assert k < last ==> refs[..last][k] == refs[k];
    }
    if Mentions(refs[..last], n) {
      var k :| 0 <= k < last && refs[..last][k].Some? && refs[..last][k].value.name == n;
      assert refs[k].value.name == n;
    }
  }

  // The names are the ones mentioned, each once.
  lemma {:induction false} NamesMentioned(refs: seq<Option<SecretKey>>, n: string)
    ensures Distinct(Names(refs)) && (n in Names(refs) <==> Mentions(refs, n))
  {
    if refs != [] {
      NamesMentioned(refs[..|refs| - 1], n);
      MentionsNext(refs, n);
    }
  }

  function Position(names: seq<string>, n: string): (p: nat)
    requires n in names
    ensures p < |names| && names[p] == n && n !in names[..p]
  {
    if names[0] == n then 0 else 1 + Position(names[1..], n)
  }

  lemma {:induction false} PositionPrefix(names: seq<string>, more: seq<string>, n: string)
    requires n in names && names <= more
    ensures n in more && Position(more, n) == Position(names, n)
  {
    if names[0] != n { PositionPrefix(names[1..], more[1..], n); }
  }

  // The value of a reference: its key in the one version of its Secret that was fetched.
  function ValueOf(ref: Option<SecretKey>, names: seq<string>, answer: Answers): string
    requires ref.Some? ==> ref.value.name in names
  {
    match ref
    case None => ""
    case Some(r) =>
      var reply := answer(Position(names, r.name), r.name);
      if reply.Ok? then Read(reply.value, r.key) else ""
  }

  predicate Answered(names: seq<string>, answer: Answers) {
    forall k :: 0 <= k < |names| ==> answer(k, names[k]).Ok?
  }

  predicate Correct(refs: seq<Option<SecretKey>>, s: seq<string>, names: seq<string>, answer: Answers) {
    |s| == |refs| && forall j :: 0 <= j < |refs| ==>
      && (refs[j].Some? ==> refs[j].value.name in names)
      && s[j] == ValueOf(refs[j], names, answer)
  }

  // Fetching one more Secret changes no earlier value.
  lemma CorrectMore(refs: seq<Option<SecretKey>>, i: nat, s: seq<string>, names: seq<string>, more: seq<string>, answer: Answers)
    requires i < |refs| && Correct(refs[..i], s, names, answer) && names <= more
    ensures Correct(refs[..i], s, more, answer)
  {
    forall j | 0 <= j < i
      ensures (refs[j].Some? ==> refs[j].value.name in more) && s[j] == ValueOf(refs[j], more, answer)
    {
      assert refs[..i][j] == refs[j];
      if refs[j].Some? { PositionPrefix(names, more, refs[j].value.name); }
    }
  }

  lemma CorrectNext(refs: seq<Option<SecretKey>>, i: nat, s: seq<string>, names: seq<string>, answer: Answers, val: string)
    requires i < |refs| && Correct(refs[..i], s, names, answer)
    requires refs[i].Some? ==> refs[i].value.name in names
    requires val == ValueOf(refs[i], names, answer)
    ensures Correct(refs[..i + 1], s + [val], names, answer)
  {
    assert forall j :: 0 <= j < i ==> refs[..i + 1][j] == refs[..i][j] && (s + [val])[j] == s[j];
  }

  // What the cache holds is what was fetched, each name once.
  ghost predicate Cached(cache: map<string, Secret>, fetched: seq<string>, answer: Answers) {
    && Answered(fetched, answer)
    && (forall n :: n in cache <==> n in fetched)
    && (forall n :: n in fetched ==> cache[n] == answer(Position(fetched, n), n).value)
  }

  lemma CachedMore(cache: map<string, Secret>, fetched: seq<string>, answer: Answers, n: string)
    requires Cached(cache, fetched, answer) && n !in fetched && answer(|fetched|, n).Ok?
    ensures Cached(cache[n := answer(|fetched|, n).value], fetched + [n], answer)
  {
    var more := fetched + [n];
    forall m | m in more ensures cache[n := answer(|fetched|, n).value][m] == answer(Position(more, m), m).value {
      if m in fetched { PositionPrefix(fetched, more, m); }
    }
  }

  // One Secret, from the cache if it is there.
  method Fetch(name: string, cache: map<string, Secret>, fetched: seq<string>, answer: Answers)
    returns (r: Result<Secret, GoError>, cache': map<string, Secret>, fetched': seq<string>)
    requires Cached(cache, fetched, answer)
    ensures fetched' == if name in fetched then fetched else fetched + [name]
    ensures r.Ok? ==> Cached(cache', fetched', answer) && r.value == answer(Position(fetched', name), name).value
    ensures r.Err? ==> name !in fetched && answer(|fetched|, name) == Err(r.error)
  {
    if name in cache {
      return Ok(cache[name]), cache, fetched;
    }
    r := answer(|fetched|, name);
    cache', fetched' := cache, fetched + [name];
    if r.Ok? {
      CachedMore(cache, fetched, answer, name);
      cache' := cache[name := r.value];
    }
  }

  // One fetch per distinct name, in order of first mention, up to the first
  // that fails: its error is the answer. If none does, the answer is one value
  // per reference, all keys of a Secret from the one version fetched.
  predicate Resolves(refs: seq<Option<SecretKey>>, answer: Answers, r: Result<seq<string>, GoError>, fetched: seq<string>) {
    && fetched <= Names(refs)
    && match r
       case Ok(s) => fetched == Names(refs) && Answered(fetched, answer) && Correct(refs, s, fetched, answer)
       case Err(e) =>
         && fetched != [] && Answered(fetched[..|fetched| - 1], answer)
         && answer(|fetched| - 1, fetched[|fetched| - 1]) == Err(e)
  }

  // One reference: its value, and what the names and the cache have become.
  method ReadRef(ref: Option<SecretKey>, cache: map<string, Secret>, fetched: seq<string>, answer: Answers)
    returns (r: Result<string, GoError>, cache': map<string, Secret>, fetched': seq<string>)
    requires Cached(cache, fetched, answer)
    ensures fetched' == if ref.None? || ref.value.name in fetched then fetched else fetched + [ref.value.name]
    ensures r.Ok? ==>
      && Cached(cache', fetched', answer)
      && (ref.Some? ==> ref.value.name in fetched') && r.value == ValueOf(ref, fetched', answer)
    ensures r.Err? ==>
      ref.Some? && ref.value.name !in fetched && answer(|fetched|, ref.value.name) == Err(r.error)
  {
    if ref.None? { return Ok(""), cache, fetched; }
    var secr;
    secr, cache', fetched' := Fetch(ref.value.name, cache, fetched, answer);
    if secr.Err? { return Err(secr.error), cache', fetched'; }
    CachedOk(cache', fetched', answer, ref.value.name);
    r := Ok(Read(secr.value, ref.value.key));
  }

  lemma CachedOk(cache: map<string, Secret>, fetched: seq<string>, answer: Answers, n: string)
    requires Cached(cache, fetched, answer) && n in fetched
    ensures answer(Position(fetched, n), n).Ok?
  {
  }

  lemma FirstFailure(refs: seq<Option<SecretKey>>, i: nat, before: seq<string>, fetched: seq<string>, answer: Answers, e: GoError)
    requires i < |refs| && Answered(before, answer) && fetched == Names(refs[..i + 1])
    requires |fetched| == |before| + 1 && fetched[..|before|] == before && answer(|before|, fetched[|before|]) == Err(e)
    ensures Resolves(refs, answer, Err(e), fetched)
  {
    NamesPrefix(refs, i + 1);
  }

  lemma NothingRead(refs: seq<Option<SecretKey>>, answer: Answers)
    ensures Names(refs[..0]) == [] && Cached(map[], [], answer) && Correct(refs[..0], [], [], answer)
  {
  }

  lemma AllRead(refs: seq<Option<SecretKey>>, s: seq<string>, cache: map<string, Secret>, fetched: seq<string>, answer: Answers)
    requires fetched == Names(refs[..|refs|]) && Cached(cache, fetched, answer) && Correct(refs[..|refs|], s, fetched, answer)
    ensures Resolves(refs, answer, Ok(s), fetched)
  {
    assert refs[..|refs|] == refs;
  }

  // The value is the key's in the answer to the k-th fetch, which was for the reference's Secret.
  predicate FromFetch(ref: SecretKey, value: string, k: nat, fetched: seq<string>, answer: Answers) {
    && k < |fetched| && fetched[k] == ref.name && answer(k, ref.name).Ok?
    && var secret := answer(k, ref.name).value;
       value == if ref.key in secret then secret[ref.key] else ""
  }

  // So every value comes from the one fetch of its name, or is "" for no reference.
  lemma ValuesSay(refs: seq<Option<SecretKey>>, answer: Answers, s: seq<string>, fetched: seq<string>)
    requires Resolves(refs, answer, Ok(s), fetched)
    ensures |s| == |refs| && Distinct(fetched)
    ensures forall j :: 0 <= j < |refs| ==>
      if refs[j].None? then s[j] == "" else exists k: nat :: FromFetch(refs[j].value, s[j], k, fetched, answer)
  {
    NamesMentioned(refs, "");
    forall j | 0 <= j < |refs| && refs[j].Some?
      ensures exists k: nat :: FromFetch(refs[j].value, s[j], k, fetched, answer)
    {
      var k := Position(fetched, refs[j].value.name);
      assert answer(k, fetched[k]).Ok?;
      assert FromFetch(refs[j].value, s[j], k, fetched, answer);
    }
  }

  method Get(refs: seq<Option<SecretKey>>, answer: Answers) returns (r: Result<seq<string>, GoError>, fetched: seq<string>)
    ensures Resolves(refs, answer, r, fetched)
  {
    var s := [];
    var secretCache: map<string, Secret> := map[];
    fetched := [];
    NothingRead(refs, answer);
    hide Names, Correct, ValueOf, Position, Resolves;
    for i := 0 to |refs|
      invariant fetched == Names(refs[..i])
      invariant Cached(secretCache, fetched, answer)
      invariant Correct(refs[..i], s, fetched, answer)
    {
      NamesNext(refs, i);
      ghost var before := fetched;
      var val;
      val, secretCache, fetched := ReadRef(refs[i], secretCache, fetched, answer);
      if val.Err? {
        FirstFailure(refs, i, before, fetched, answer, val.error);
        return Err(val.error), fetched;
      }
      CorrectMore(refs, i, s, before, fetched, answer);
      CorrectNext(refs, i, s, fetched, answer, val.value);
      s := s + [val.value];
    }
    AllRead(refs, s, secretCache, fetched, answer);
    r := Ok(s);
  }

  // ---- Against looking every reference up on its own ----

  function Direct(refs: seq<Option<SecretKey>>, store: string -> Result<Secret, GoError>): Result<seq<string>, GoError> {
    if refs == [] then Ok([])
    else
      var earlier := Direct(refs[..|refs| - 1], store);
      if earlier.Err? then earlier
      else match refs[|refs| - 1]
        case None => Ok(earlier.value + [""])
        case Some(ref) =>
          var reply := store(ref.name);
          if reply.Err? then Err(reply.error)
          else Ok(earlier.value + [if ref.key in reply.value then reply.value[ref.key] else ""])
  }

  function Direct1(ref: Option<SecretKey>, store: string -> Result<Secret, GoError>): string {
    if ref.None? || store(ref.value.name).Err? then ""
    else
      var secret := store(ref.value.name).value;
      if ref.value.key in secret then secret[ref.value.key] else ""
  }

  lemma {:induction false} DirectOk(refs: seq<Option<SecretKey>>, store: string -> Result<Secret, GoError>)
    requires forall n :: Mentions(refs, n) ==> store(n).Ok?
    ensures Direct(refs, store).Ok? && |Direct(refs, store).value| == |refs|
    ensures forall j :: 0 <= j < |refs| ==> Direct(refs, store).value[j] == Direct1(refs[j], store)
  {
    if refs != [] {
      var last := |refs| - 1;
      forall n | Mentions(refs[..last], n) ensures store(n).Ok? { MentionsNext(refs, n); }
      DirectOk(refs[..last], store);
      if refs[last].Some? { MentionsNext(refs, refs[last].value.name); }
    }
  }

  // The error is that of the first name that cannot be fetched.
  lemma {:induction false} DirectErr(refs: seq<Option<SecretKey>>, store: string -> Result<Secret, GoError>, k: nat)
    requires k < |Names(refs)| && store(Names(refs)[k]).Err?
    requires forall i :: 0 <= i < k ==> store(Names(refs)[i]).Ok?
    ensures Direct(refs, store) == Err(store(Names(refs)[k]).error)
  {
    var last := |refs| - 1;
    var earlier := Names(refs[..last]);
    assert earlier <= Names(refs);
    assert forall i :: 0 <= i < |earlier| ==> earlier[i] == Names(refs)[i];
    if k < |earlier| {
      DirectErr(refs[..last], store, k);
    } else {
      forall n | Mentions(refs[..last], n) ensures store(n).Ok? {
        NamesMentioned(refs[..last], n);
        assert store(Names(refs)[Position(earlier, n)]).Ok?;
      }
      DirectOk(refs[..last], store);
    }
  }

  // While the store does not change, the getter answers exactly what direct lookup would.
  lemma RefinesDirect(refs: seq<Option<SecretKey>>, store: string -> Result<Secret, GoError>, answer: Answers,
                      r: Result<seq<string>, GoError>, fetched: seq<string>)
    requires forall i: nat, n :: answer(i, n) == store(n)
    requires Resolves(refs, answer, r, fetched)
    ensures r == Direct(refs, store)
  {
    if r.Ok? {
      forall n | Mentions(refs, n) ensures store(n).Ok? {
        NamesMentioned(refs, n);
        assert answer(Position(fetched, n), n).Ok?;
      }
      DirectOk(refs, store);
      assert r.value == Direct(refs, store).value;
    } else {
      var k := |fetched| - 1;
      forall i | 0 <= i < k ensures store(Names(refs)[i]).Ok? {
        assert answer(i, fetched[..k][i]).Ok?;
      }
      DirectErr(refs, store, k);
    }
  }
}
