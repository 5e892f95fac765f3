/** The statistics at the top of the dashboard (components/Dashboard.tsx):
    the number of videos produced in the session and the views they are
    expected to bring, each project counting the average views of its
    channel. The revenue estimate is floating point and is not modelled. */
module Dashboard {
  import opened Wrappers
  import opened Seqs
  import opened Types

  /** `channels.find(c => c.name === project.channelName)`: a project without
      a channel name matches no channel. */
  function ChannelOf(channels: seq<Channel>, project: GeneratedAsset): (r: Option<Channel>)
    ensures r.Some? ==> r.value in channels && project.channelName == Some(r.value.name)
    ensures r.None? ==> forall c :: c in channels ==> project.channelName != Some(c.name)
  {
    Find(channels, (c: Channel) => project.channelName == Some(c.name))
  }

  /** A channel counts when both its average views and its RPM are defined
      and non-zero. */
  predicate Counts(c: Channel)
    ensures Counts(c) ==> c.avgViews.Some? && c.avgViews.value != 0 && c.rpm.Some?
  {
    c.avgViews.Some? && c.avgViews.value != 0 && c.rpm.Some? && c.rpm.value != 0.0
  }

  /** The views one project adds: its channel's average, when the channel
      exists and counts; nothing otherwise. */
  function ProjectViews(channels: seq<Channel>, project: GeneratedAsset): int {
    match ChannelOf(channels, project)
    case Some(c) => if Counts(c) then c.avgViews.value else 0
    case None => 0
  }

  /** The estimated views of a list of projects: the sum of what each adds. */
  function TotalViews(channels: seq<Channel>, projects: seq<GeneratedAsset>): (r: int)
    ensures (forall k :: 0 <= k < |projects| ==> ProjectViews(channels, projects[k]) == 0) ==> r == 0
    ensures (forall c :: c in channels && c.avgViews.Some? ==> c.avgViews.value >= 0) ==> r >= 0
    decreases |projects|
  {
    if |projects| == 0 then 0
    else TotalViews(channels, projects[..|projects| - 1]) + ProjectViews(channels, projects[|projects| - 1])
  }

  /** The `forEach` over the projects: the video count and the accumulated
      estimated views. */
  method ComputeStats(channels: seq<Channel>, projects: seq<GeneratedAsset>)
    returns (totalVideos: nat, totalEstimatedViews: int)
    ensures totalVideos == |projects|
    ensures totalEstimatedViews == TotalViews(channels, projects)
  {
    totalVideos := |projects|;
    totalEstimatedViews := 0;
    for i := 0 to |projects|
      invariant totalEstimatedViews == TotalViews(channels, projects[..i])
    {
      var channel := ChannelOf(channels, projects[i]);
      if channel.Some? && Counts(channel.value) {
        totalEstimatedViews := totalEstimatedViews + channel.value.avgViews.value;
      }
      assert projects[..i + 1][..i] == projects[..i];
    }
    assert projects[..|projects|] == projects;
  }

  /** Estimates add up over concatenation: each project counts on its own. */
  lemma {:induction false} TotalViewsAppend(channels: seq<Channel>, a: seq<GeneratedAsset>, b: seq<GeneratedAsset>)
    ensures TotalViews(channels, a + b) == TotalViews(channels, a) + TotalViews(channels, b)
    decreases |b|
  {
    if |b| == 0 {
      assert a + b == a;
    } else {
      var b' := b[..|b| - 1];
      assert (a + b)[..|a + b| - 1] == a + b';
      assert (a + b)[|a + b| - 1] == b[|b| - 1];
      TotalViewsAppend(channels, a, b');
    }
  }

  /** With no projects there are no views. */
  lemma NoProjectsNoViews(channels: seq<Channel>)
    ensures TotalViews(channels, []) == 0
  {
  }

  /** A project whose channel name matches no channel adds nothing. */
  lemma {:induction false} UnmatchedAddsNothing(channels: seq<Channel>, projects: seq<GeneratedAsset>, p: GeneratedAsset)
    requires forall c :: c in channels ==> p.channelName != Some(c.name)
    ensures TotalViews(channels, projects + [p]) == TotalViews(channels, projects)
  {
    assert (projects + [p])[..|projects|] == projects;
  }

  /** Two projects on the same channel count its average twice. */
  lemma {:induction false} SameChannelCountsTwice(channels: seq<Channel>, p: GeneratedAsset, q: GeneratedAsset, c: Channel)
    requires ChannelOf(channels, p) == Some(c) && ChannelOf(channels, q) == Some(c) && Counts(c)
    ensures TotalViews(channels, [p, q]) == 2 * c.avgViews.value
  {
    assert [p, q][..1] == [p];
    assert [p][..0] == [];
    assert TotalViews(channels, [p]) == ProjectViews(channels, p);
    assert ProjectViews(channels, p) == c.avgViews.value && ProjectViews(channels, q) == c.avgViews.value;
  }
}
