/**
 * Start-or-enqueue planning of the /play and /radio commands: which track
 * URIs are sent to the remote player as "start playback" and which as
 * "add to queue", in order. The remote calls themselves are not modelled.
 */
module Queue {

  type Uri = string

  /** One remote call: start playback of a URI, or add a URI to the queue. */
  datatype Action = Start(uri: Uri) | Enqueue(uri: Uri)

  /** The URIs each remote call sends, concatenated in call order. */
  function SentUris(plan: seq<Action>): seq<Uri>
  {
    if plan == [] then [] else [plan[0].uri] + SentUris(plan[1..])
  }

  /** One add-to-queue call per URI, in order. */
  function EnqueueAll(uris: seq<Uri>): (plan: seq<Action>)
    ensures |plan| == |uris|
    ensures forall i :: 0 <= i < |plan| ==> plan[i] == Enqueue(uris[i])
  {
    if uris == [] then [] else [Enqueue(uris[0])] + EnqueueAll(uris[1..])
  }

  /**
   * /play for an album: when something is playing every track is enqueued;
   * otherwise the first track is started and the rest enqueued. Starting
   * indexes the first track, so that branch needs a track to start.
   */
  function PlanQueue(isPlaying: bool, uris: seq<Uri>): (plan: seq<Action>)
    requires isPlaying || uris != []
    ensures |plan| == |uris|
    ensures forall i :: 0 <= i < |plan| ==> plan[i].uri == uris[i]
    ensures forall i :: 0 <= i < |plan| ==> (plan[i].Start? <==> !isPlaying && i == 0)
  {
    if isPlaying then EnqueueAll(uris)
    else [Start(uris[0])] + EnqueueAll(uris[1..])
  }

  /** /play for one track: enqueue it when something is playing, else start it. */
  function PlanTrack(isPlaying: bool, uri: Uri): (plan: seq<Action>)
    ensures plan == [if isPlaying then Enqueue(uri) else Start(uri)]
  {
    PlanQueue(isPlaying, [uri])
  }

  /** /radio: start the first recommendation and enqueue the others, whatever is playing. */
  function PlanRadio(uris: seq<Uri>): (plan: seq<Action>)
    requires uris != []
    ensures |plan| == |uris|
    ensures plan[0] == Start(uris[0])
    ensures forall i :: 1 <= i < |plan| ==> plan[i] == Enqueue(uris[i])
  {
    PlanQueue(false, uris)
  }

  /** A plan whose i-th call carries the i-th URI sends exactly those URIs. */
  lemma {:induction false} SentUrisInOrder(plan: seq<Action>, uris: seq<Uri>)
    requires |plan| == |uris|
    requires forall i :: 0 <= i < |plan| ==> plan[i].uri == uris[i]
    ensures SentUris(plan) == uris
  {
    if plan != [] {
      SentUrisInOrder(plan[1..], uris[1..]);
    }
  }

  /** Whatever is playing, the planned calls send every URI once, in order. */
  lemma PlanSendsEveryUri(isPlaying: bool, uris: seq<Uri>)
    requires isPlaying || uris != []
    ensures SentUris(PlanQueue(isPlaying, uris)) == uris
  {
    SentUrisInOrder(PlanQueue(isPlaying, uris), uris);
  }
}
