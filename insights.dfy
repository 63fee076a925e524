/** `wait_for_videos_processing_and_save_insights` (prepare_db.py): for each
    (name, id) pair of the id map, wait for indexing, fetch the insights and
    upload them to the container under a key derived from the video name.
    The container's objects are a map from key to content; the service's
    wait-fetch-upload sequence for one video is an oracle that gives the
    JSON text stored, or nothing when one of those calls raised. */
module Insights {
  import opened Wrappers

  const InsightsSuffix := "_insights.json"

  /** The storage key of a video's insights document. */
  function InsightsKey(videoName: string): (key: string)
    ensures |key| == |videoName| + |InsightsSuffix|
    ensures key[..|videoName|] == videoName && key[|videoName|..] == InsightsSuffix
  {
    videoName + InsightsSuffix
  }

  /** Distinct videos get distinct insights keys. */
  lemma InsightsKeyInjective(a: string, b: string)
    requires a != b
    ensures InsightsKey(a) != InsightsKey(b)
  {
    if |a| == |b| {
      assert InsightsKey(a)[..|a|] == a && InsightsKey(b)[..|b|] == b;
    }
  }

  /** The storage after handling `videos` in order from `stored`: a video
      whose insights were obtained overwrites its key, a video whose
      processing raised leaves the storage as it was, and the loop goes on. */
  function SaveInsights(stored: map<string, string>, videos: seq<(string, string)>,
                        insights: string -> Option<string>): (r: map<string, string>)
    ensures stored.Keys <= r.Keys
    decreases |videos|
  {
    if videos == [] then
      stored
    else
      var (name, id) := videos[0];
      var next := match insights(id)
        case Some(doc) => stored[InsightsKey(name) := doc]
        case None => stored;
      SaveInsights(next, videos[1..], insights)
  }

  /** The keys the loop writes. */
  function WrittenKeys(videos: seq<(string, string)>, insights: string -> Option<string>): set<string> {
    set i | 0 <= i < |videos| && insights(videos[i].1).Some? :: InsightsKey(videos[i].0)
  }

  /** The video names are distinct, as the keys of a dictionary are. */
  predicate DistinctNames(videos: seq<(string, string)>) {
    forall i, j :: 0 <= i < j < |videos| ==> videos[i].0 != videos[j].0
  }

  /** Only the keys of videos whose insights were obtained change; every
      other object of the container is left as it was. */
  lemma {:induction false} SaveInsightsKeys(stored: map<string, string>, videos: seq<(string, string)>,
                                            insights: string -> Option<string>)
    ensures SaveInsights(stored, videos, insights).Keys == stored.Keys + WrittenKeys(videos, insights)
    ensures forall key :: key in stored && key !in WrittenKeys(videos, insights) ==>
              SaveInsights(stored, videos, insights)[key] == stored[key]
    decreases |videos|
  {
    if videos != [] {
      var (name, id) := videos[0];
      var next := match insights(id)
        case Some(doc) => stored[InsightsKey(name) := doc]
        case None => stored;
      SaveInsightsKeys(next, videos[1..], insights);
      var written := WrittenKeys(videos, insights);
      var writtenRest := WrittenKeys(videos[1..], insights);
      assert written == writtenRest + (if insights(id).Some? then {InsightsKey(name)} else {}) by {
        forall key | key in written
          ensures key in writtenRest || (insights(id).Some? && key == InsightsKey(name))
        {
          var i :| 0 <= i < |videos| && insights(videos[i].1).Some? && key == InsightsKey(videos[i].0);
          if i > 0 {
            assert videos[1..][i - 1] == videos[i];
          }
        }
        forall key | key in writtenRest ensures key in written {
          var i :| 0 <= i < |videos[1..]| && insights(videos[1..][i].1).Some? && key == InsightsKey(videos[1..][i].0);
          assert videos[i + 1] == videos[1..][i];
        }
      }
    }
  }

  /** Every video whose insights were obtained has them stored under its
      key, whether or not the processing of other videos failed. */
  lemma {:induction false} SaveInsightsStored(stored: map<string, string>, videos: seq<(string, string)>,
                                              insights: string -> Option<string>, i: nat)
    requires DistinctNames(videos)
    requires i < |videos| && insights(videos[i].1).Some?
    ensures InsightsKey(videos[i].0) in SaveInsights(stored, videos, insights)
    ensures SaveInsights(stored, videos, insights)[InsightsKey(videos[i].0)] == insights(videos[i].1).value
    decreases |videos|
  {
    var (name, id) := videos[0];
    var next := match insights(id)
      case Some(doc) => stored[InsightsKey(name) := doc]
      case None => stored;
    if i == 0 {
      SaveInsightsKeys(next, videos[1..], insights);
      assert InsightsKey(name) !in WrittenKeys(videos[1..], insights) by {
        forall j | 0 <= j < |videos[1..]| ensures InsightsKey(videos[1..][j].0) != InsightsKey(name) {
          assert videos[1..][j] == videos[j + 1];
          InsightsKeyInjective(videos[1..][j].0, name);
        }
      }
    } else {
      assert videos[1..][i - 1] == videos[i];
      assert DistinctNames(videos[1..]) by {
        forall a, b | 0 <= a < b < |videos[1..]| ensures videos[1..][a].0 != videos[1..][b].0 {
          assert videos[1..][a] == videos[a + 1] && videos[1..][b] == videos[b + 1];
        }
      }
      SaveInsightsStored(next, videos[1..], insights, i - 1);
    }
  }

  /** When every video's processing raised, the container is left exactly
      as it was. */
  lemma SaveInsightsNothingObtained(stored: map<string, string>, videos: seq<(string, string)>,
                                    insights: string -> Option<string>)
    requires forall i :: 0 <= i < |videos| ==> insights(videos[i].1).None?
    ensures SaveInsights(stored, videos, insights) == stored
  {
    SaveInsightsKeys(stored, videos, insights);
    assert WrittenKeys(videos, insights) == {};
  }
}
