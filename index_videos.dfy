/** `index_videos` in prepare_db.py: resolve each blob name to a video id of
    the indexing service, reusing the ids of the cache file, then asking the
    service whether a video of that name exists, then uploading it. The
    service is given as two oracle functions of the blob name. */
module IndexVideos {
  import opened Wrappers
  import opened PyValues

  /** What `upload_url_async` does for one blob: it returns a value (a `str`
      or `None`) or it raises. */
  datatype UploadReply = Returned(id: PyStr) | Raised

  /** The indexing service as the loop sees it: `video_exists` and
      `upload_url_async`, each a function of the blob name. */
  datatype Service = Service(lookup: string -> PyStr, upload: string -> UploadReply)

  /** The calls made to the indexing service, in the order they happen. */
  datatype ServiceCall = Lookup(name: string) | Upload(name: string)

  /** The id map and the service calls made so far. */
  datatype Indexed = Indexed(ids: map<string, string>, calls: seq<ServiceCall>)

  /** The map `index_videos` starts from: the cache file's contents when the
      file exists, the empty map otherwise. */
  function Seed(cacheFile: Option<map<string, string>>): map<string, string> {
    match cacheFile
    case Some(m) => m
    case None => map[]
  }

  /** The id a blob name resolves to when it is not yet in the map: the
      existing video's id when the lookup returns a truthy one, otherwise
      the uploaded video's id when the upload returns a truthy one, otherwise
      nothing. */
  function Resolve(svc: Service, name: string): (r: Option<string>)
    ensures r.Some? ==> r.value != ""
  {
    if Truthy(svc.lookup(name)) then svc.lookup(name)
    else match svc.upload(name)
      case Returned(id) => if Truthy(id) then id else None
      case Raised => None
  }

  /** The service calls of one round for a name not yet in the map: the
      lookup, then the upload unless the lookup found a video. */
  function RoundCalls(svc: Service, name: string): seq<ServiceCall> {
    if Truthy(svc.lookup(name)) then [Lookup(name)] else [Lookup(name), Upload(name)]
  }

  /** One iteration of the loop over the blobs: a name already in the map is
      skipped; otherwise one round of calls is made and the name is recorded
      when it resolves. */
  function Step(svc: Service, ids: map<string, string>, name: string): Indexed {
    if name in ids then
      Indexed(ids, [])
    else
      var id := Resolve(svc, name);
      Indexed(if id.Some? then ids[name := id.value] else ids, RoundCalls(svc, name))
  }

  /** The loop over `blobs` from the map `ids`: the final map and the calls
      made by the whole walk. */
  function Run(svc: Service, ids: map<string, string>, blobs: seq<string>): Indexed
    decreases |blobs|
  {
    if blobs == [] then
      Indexed(ids, [])
    else
      var first := Step(svc, ids, blobs[0]);
      var rest := Run(svc, first.ids, blobs[1..]);
      Indexed(rest.ids, first.calls + rest.calls)
  }

  /** The blob names that resolve to an id. */
  function ResolvedNames(svc: Service, blobs: seq<string>): set<string> {
    set name | name in blobs && Resolve(svc, name).Some?
  }

  /** Reference definition of the resulting map: every seed entry as it was,
      plus every blob name outside the seed that resolves, with its id. */
  function Expected(svc: Service, seed: map<string, string>, blobs: seq<string>): map<string, string>
  {
    map name | name in seed.Keys + ResolvedNames(svc, blobs) ::
      if name in seed then seed[name] else Resolve(svc, name).value
  }

  /** How many times the loop looks `name` up from the map `seed`: never for
      a seeded name, once for a name that resolves (its later occurrences are
      skipped), and once per occurrence for a name that does not. */
  function LookupRounds(svc: Service, seed: map<string, string>, blobs: seq<string>, name: string): nat
  {
    if name in seed then 0
    else if Resolve(svc, name).Some? then (if name in blobs then 1 else 0)
    else multiset(blobs)[name]
  }

  /** How many times the loop uploads `name`: as for lookups, except that a
      name whose lookup finds a video is never uploaded. */
  function UploadRounds(svc: Service, seed: map<string, string>, blobs: seq<string>, name: string): nat
  {
    if Truthy(svc.lookup(name)) then 0 else LookupRounds(svc, seed, blobs, name)
  }

  /** The resolved names of a non-empty list: those of its tail, plus its
      head when that resolves. */
  lemma ResolvedNamesCons(svc: Service, name: string, rest: seq<string>)
    ensures ResolvedNames(svc, [name] + rest)
         == ResolvedNames(svc, rest) + (if Resolve(svc, name).Some? then {name} else {})
  {
    forall n ensures n in [name] + rest <==> n == name || n in rest {
    }
  }

  /** One step and the reference map of the tail give the reference map of
      the whole list. */
  lemma ExpectedStep(svc: Service, ids: map<string, string>, name: string, rest: seq<string>)
    ensures Expected(svc, Step(svc, ids, name).ids, rest) == Expected(svc, ids, [name] + rest)
  {
    var next := Step(svc, ids, name).ids;
    ResolvedNamesCons(svc, name, rest);
    var lhs := Expected(svc, next, rest);
    var rhs := Expected(svc, ids, [name] + rest);
    assert lhs.Keys == rhs.Keys;
    forall n | n in lhs.Keys ensures lhs[n] == rhs[n] {
      if n in ids {
        assert next[n] == ids[n];
      }
    }
  }

  /** What the reference map says about each name: seed entries are kept
      as they were, and every other entry is a resolved blob name with the id
      it resolves to. */
  lemma ExpectedFacts(svc: Service, seed: map<string, string>, blobs: seq<string>)
    ensures forall name :: name in seed ==>
              name in Expected(svc, seed, blobs) && Expected(svc, seed, blobs)[name] == seed[name]
    ensures Expected(svc, seed, blobs).Keys == seed.Keys + ResolvedNames(svc, blobs)
    ensures forall name :: name in Expected(svc, seed, blobs) && name !in seed ==>
              name in blobs && Resolve(svc, name) == Some(Expected(svc, seed, blobs)[name])
  {
  }

  /** The walk yields the reference map. */
  lemma {:induction false} RunIsExpected(svc: Service, ids: map<string, string>, blobs: seq<string>)
    ensures Run(svc, ids, blobs).ids == Expected(svc, ids, blobs)
    decreases |blobs|
  {
    if blobs == [] {
      assert ResolvedNames(svc, blobs) == {};
    } else {
      var next := Step(svc, ids, blobs[0]).ids;
      RunIsExpected(svc, next, blobs[1..]);
      ExpectedStep(svc, ids, blobs[0], blobs[1..]);
      assert [blobs[0]] + blobs[1..] == blobs;
    }
  }

  /** The calls of one step for `name`, and whether `name` is in the map
      after it. */
  lemma StepFacts(svc: Service, ids: map<string, string>, b: string, name: string)
    ensures multiset(Step(svc, ids, b).calls)[Lookup(name)] == (if b == name && name !in ids then 1 else 0)
    ensures multiset(Step(svc, ids, b).calls)[Upload(name)]
         == (if b == name && name !in ids && !Truthy(svc.lookup(name)) then 1 else 0)
    ensures name in Step(svc, ids, b).ids <==> name in ids || (b == name && Resolve(svc, name).Some?)
  {
  }

  /** Walking from `ids` never looks up or uploads a name already in `ids`,
      and it counts the other names' rounds as `LookupRounds` and
      `UploadRounds` say. */
  lemma {:induction false} RunCallCounts(svc: Service, ids: map<string, string>, blobs: seq<string>, name: string)
    ensures multiset(Run(svc, ids, blobs).calls)[Lookup(name)] == LookupRounds(svc, ids, blobs, name)
    ensures multiset(Run(svc, ids, blobs).calls)[Upload(name)] == UploadRounds(svc, ids, blobs, name)
    decreases |blobs|
  {
    if blobs != [] {
      var b := blobs[0];
      var rest := blobs[1..];
      var first := Step(svc, ids, b);
      var tail := Run(svc, first.ids, rest);
      RunCallCounts(svc, first.ids, rest, name);
      StepFacts(svc, ids, b, name);
      assert blobs == [b] + rest;
      assert multiset(blobs)[name] == (if b == name then 1 else 0) + multiset(rest)[name];
      assert name in blobs <==> name == b || name in rest;
      assert multiset(Run(svc, ids, blobs).calls) == multiset(first.calls) + multiset(tail.calls);
    }
  }

  /** The facts of `ExpectedFacts`, stated of the walk's result. */
  lemma RunFacts(svc: Service, seed: map<string, string>, blobs: seq<string>)
    ensures forall name :: name in seed ==>
              name in Run(svc, seed, blobs).ids && Run(svc, seed, blobs).ids[name] == seed[name]
    ensures Run(svc, seed, blobs).ids.Keys == seed.Keys + ResolvedNames(svc, blobs)
    ensures forall name :: name in Run(svc, seed, blobs).ids && name !in seed ==>
              name in blobs && Resolve(svc, name) == Some(Run(svc, seed, blobs).ids[name])
  {
    RunIsExpected(svc, seed, blobs);
    ExpectedFacts(svc, seed, blobs);
  }

  /** Regrouping the calls of the loop: proved apart, because inside the
      loop's context the solver spends far more on it. */
  lemma ConcatAssoc(a: seq<ServiceCall>, b: seq<ServiceCall>, c: seq<ServiceCall>)
    ensures a + (b + c) == (a + b) + c
  {
  }

  /** `index_videos`: seeds the map from the cache file when it exists, then
      walks the blobs in order, skipping a name already in the map, recording
      a truthy id found by `video_exists`, otherwise trying the upload and
      recording its id when truthy; a falsy upload result or an exception
      leaves the map as it is and the walk goes on. Returns the map (which is
      also what the function writes back to the cache file) and the service
      calls it made. */
  method IndexVideos(cacheFile: Option<map<string, string>>, blobs: seq<string>,
                     svc: Service)
    returns (ids: map<string, string>, calls: seq<ServiceCall>)
    ensures Indexed(ids, calls) == Run(svc, Seed(cacheFile), blobs)
    ensures forall name :: name in Seed(cacheFile) ==> name in ids && ids[name] == Seed(cacheFile)[name]
    ensures ids.Keys == Seed(cacheFile).Keys + ResolvedNames(svc, blobs)
    ensures forall name :: name in ids && name !in Seed(cacheFile) ==>
              name in blobs && Resolve(svc, name) == Some(ids[name])
    ensures forall name :: multiset(calls)[Lookup(name)] == LookupRounds(svc, Seed(cacheFile), blobs, name)
    ensures forall name :: multiset(calls)[Upload(name)] == UploadRounds(svc, Seed(cacheFile), blobs, name)
  {
    ids := Seed(cacheFile);
    calls := [];
    var i := 0;
    while i < |blobs|
      invariant 0 <= i <= |blobs|
      invariant Run(svc, Seed(cacheFile), blobs)
             == Indexed(Run(svc, ids, blobs[i..]).ids, calls + Run(svc, ids, blobs[i..]).calls)
    {
      var name := blobs[i];
      assert blobs[i..][0] == name && blobs[i..][1..] == blobs[i + 1..];
      ghost var before := ids;
      var made: seq<ServiceCall>;
      if name in ids {
        made := [];
      } else {
        var videoId := svc.lookup(name);
        if Truthy(videoId) {
          ids := ids[name := videoId.value];
          made := [Lookup(name)];
        } else {
          var reply := svc.upload(name);
          made := [Lookup(name), Upload(name)];
          match reply
          case Returned(id) =>
            if Truthy(id) {
              ids := ids[name := id.value];
            }
          case Raised =>
        }
      }
      assert Indexed(ids, made) == Step(svc, before, name);
      ghost var rest := Run(svc, ids, blobs[i + 1..]);
      assert Run(svc, before, blobs[i..]) == Indexed(rest.ids, made + rest.calls);
      ConcatAssoc(calls, made, rest.calls);
      calls := calls + made;
      i := i + 1;
    }
    assert blobs[i..] == [];
    RunFacts(svc, Seed(cacheFile), blobs);
    forall name
      ensures multiset(calls)[Lookup(name)] == LookupRounds(svc, Seed(cacheFile), blobs, name)
      ensures multiset(calls)[Upload(name)] == UploadRounds(svc, Seed(cacheFile), blobs, name)
    {
      RunCallCounts(svc, Seed(cacheFile), blobs, name);
    }
  }

  /** A cache file holding `a.mp4` and a listing `[a.mp4, b.mp4]` whose
      lookup of `b.mp4` finds a video: the only call is that one lookup, and
      its id is recorded beside the cached one. */
  lemma CachedThenFoundExample(svc: Service)
    requires Truthy(svc.lookup("b.mp4"))
    ensures Run(svc, map["a.mp4" := "id1"], ["a.mp4", "b.mp4"])
         == Indexed(map["a.mp4" := "id1", "b.mp4" := svc.lookup("b.mp4").value], [Lookup("b.mp4")])
  {
    var seed := map["a.mp4" := "id1"];
    assert "b.mp4" !in seed;
    assert Step(svc, seed, "a.mp4") == Indexed(seed, []);
    assert ["a.mp4", "b.mp4"][1..] == ["b.mp4"];
    assert ["b.mp4"][1..] == [];
  }
}
