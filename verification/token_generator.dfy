/**
 * The token generator page: four cascading selections (tracker, campaign,
 * channel, target) plus the redirect mode, the option lists each selection
 * offers, the list loads the page's effects issue, and the request the
 * "Generate" button sends.
 *
 * A selection is modelled as one React update: the state it sets, then the
 * effects whose dependencies changed, run in declaration order with the
 * values of that render, then any render those effects cause.
 */
module TokenGenerator {
  import opened Wrappers
  import opened Json
  import opened Js
  import opened Models
  import RpcClient
  import Admin

  /** The form's selections; "" means nothing chosen. The mode starts at "302". */
  datatype Form = Form(tracker: string, campaign: string, channel: string, target: string, mode: string)

  const Initial := Form("", "", "", "", "302")

  /** A list request an effect issues. */
  datatype Load =
    | LoadCampaigns(trackerId: string)
    | LoadTargets(trackerId: string)
    | LoadChannels(trackerId: string, campaignId: string)

  /** The form after an update, and the loads issued on the way. */
  datatype Update = Update(form: Form, loads: seq<Load>)

  /**
   * Choosing a tracker. A changed, non-empty tracker loads its campaigns and
   * targets and clears campaign, channel and target. Because the campaign
   * effect also depends on the tracker, it runs too, with the old campaign:
   * a set campaign reloads its channels for the new tracker and clears the
   * channel, even when the tracker was cleared to "".
   */
  function SelectTracker(f: Form, tracker: string): (u: Update)
    ensures tracker == f.tracker ==> u == Update(f, [])
    ensures u.form.tracker == tracker && u.form.mode == f.mode
    ensures tracker != f.tracker && tracker != "" ==>
      && u.form == Form(tracker, "", "", "", f.mode)
      && |u.loads| >= 2
      && u.loads[..2] == [LoadCampaigns(tracker), LoadTargets(tracker)]
    ensures tracker != f.tracker && tracker == "" ==>
      u.form == f.(tracker := "", channel := if f.campaign != "" then "" else f.channel)
    ensures tracker != f.tracker ==>
      (LoadChannels(tracker, f.campaign) in u.loads <==> f.campaign != "")
    ensures tracker != f.tracker ==>
      |u.loads| == (if tracker != "" then 2 else 0) + (if f.campaign != "" then 1 else 0)
    ensures tracker != f.tracker && f.campaign != "" ==> u.loads[|u.loads| - 1] == LoadChannels(tracker, f.campaign)
  {
    if tracker == f.tracker then Update(f, [])
    else
      var trackerLoads := if tracker != "" then [LoadCampaigns(tracker), LoadTargets(tracker)] else [];
      var afterTracker := if tracker != "" then Form(tracker, "", "", "", f.mode) else f.(tracker := tracker);
      var campaignLoads := if f.campaign != "" then [LoadChannels(tracker, f.campaign)] else [];
      var afterCampaign := if f.campaign != "" then afterTracker.(channel := "") else afterTracker;
      Update(afterCampaign, trackerLoads + campaignLoads)
  }

  /** Choosing a campaign: a changed, non-empty campaign loads its channels and clears the channel. */
  function SelectCampaign(f: Form, campaign: string): (u: Update)
    ensures u.form.campaign == campaign
    ensures u.form.tracker == f.tracker && u.form.target == f.target && u.form.mode == f.mode
    ensures campaign != f.campaign && campaign != "" ==>
      u.form.channel == "" && u.loads == [LoadChannels(f.tracker, campaign)]
    ensures campaign == f.campaign || campaign == "" ==> u == Update(f.(campaign := campaign), [])
  {
    if campaign == f.campaign then Update(f, [])
    else if campaign != "" then Update(f.(campaign := campaign, channel := ""), [LoadChannels(f.tracker, campaign)])
    else Update(f.(campaign := ""), [])
  }

  /** The selections no effect depends on. */
  datatype PlainChoice = ChannelChoice | TargetChoice | ModeChoice

  /**
   * Choosing a channel, a target or a mode: that one field takes the
   * value, the tracker and campaign stay, and nothing is loaded.
   */
  function SelectPlain(f: Form, which: PlainChoice, value: string): (u: Update)
    ensures u.loads == []
    ensures u.form.tracker == f.tracker && u.form.campaign == f.campaign
    ensures u.form.channel == (if which == ChannelChoice then value else f.channel)
    ensures u.form.target == (if which == TargetChoice then value else f.target)
    ensures u.form.mode == (if which == ModeChoice then value else f.mode)
  {
    match which
    case ChannelChoice => Update(f.(channel := value), [])
    case TargetChoice => Update(f.(target := value), [])
    case ModeChoice => Update(f.(mode := value), [])
  }

  /**
   * A tracker choice never leaves a campaign, channel or target of another
   * tracker selected: after choosing a new non-empty tracker, all three
   * are cleared.
   */
  lemma NewTrackerClearsDependents(f: Form, tracker: string)
    requires tracker != "" && tracker != f.tracker
    ensures var g := SelectTracker(f, tracker).form;
      g.campaign == "" && g.channel == "" && g.target == ""
  {
  }

  /** The campaigns offered: exactly the selected tracker's, in list order. */
  function CampaignOptions(campaigns: seq<Campaign>, f: Form): (r: seq<Campaign>)
    ensures forall i :: 0 <= i < |r| ==> r[i] in campaigns && r[i].trackerId == f.tracker
    ensures forall i :: 0 <= i < |campaigns| && campaigns[i].trackerId == f.tracker ==> campaigns[i] in r
  {
    Filter(campaigns, (c: Campaign) => c.trackerId == f.tracker)
  }

  /** The channels offered: exactly the selected campaign's, whatever their tracker. */
  function ChannelOptions(channels: seq<Channel>, f: Form): (r: seq<Channel>)
    ensures forall i :: 0 <= i < |r| ==> r[i] in channels && r[i].campaignId == f.campaign
    ensures forall i :: 0 <= i < |channels| && channels[i].campaignId == f.campaign ==> channels[i] in r
  {
    Filter(channels, (c: Channel) => c.campaignId == f.campaign)
  }

  /** The targets offered: exactly the selected tracker's. */
  function TargetOptions(targets: seq<Target>, f: Form): (r: seq<Target>)
    ensures forall i :: 0 <= i < |r| ==> r[i] in targets && r[i].trackerId == f.tracker
    ensures forall i :: 0 <= i < |targets| && targets[i].trackerId == f.tracker ==> targets[i] in r
  {
    Filter(targets, (t: Target) => t.trackerId == f.tracker)
  }

  /** With no tracker chosen nothing is offered, since stored records always name their tracker. */
  lemma NothingWithoutTracker(campaigns: seq<Campaign>, targets: seq<Target>, f: Form)
    requires f.tracker == ""
    requires forall i :: 0 <= i < |campaigns| ==> campaigns[i].trackerId != ""
    requires forall i :: 0 <= i < |targets| ==> targets[i].trackerId != ""
    ensures CampaignOptions(campaigns, f) == [] && TargetOptions(targets, f) == []
  {
    FilterKeepsNone(campaigns, (c: Campaign) => c.trackerId == f.tracker);
    FilterKeepsNone(targets, (t: Target) => t.trackerId == f.tracker);
  }

  const GenerateMethod := "admin.token.generate"

  /** The `admin.token.generate` parameters: the five selections, nothing else. */
  function GenerateParams(f: Form): (p: JsonObject)
    ensures p.Keys == {"tracker_id", "campaign_id", "channel_id", "target_id", "mode"}
    ensures p["tracker_id"] == JString(f.tracker) && p["campaign_id"] == JString(f.campaign)
    ensures p["channel_id"] == JString(f.channel) && p["target_id"] == JString(f.target)
    ensures p["mode"] == JString(f.mode)
  {
    map[
      "tracker_id" := JString(f.tracker),
      "campaign_id" := JString(f.campaign),
      "channel_id" := JString(f.channel),
      "target_id" := JString(f.target),
      "mode" := JString(f.mode)]
  }

  /**
   * End to end: the request the page sends, once the client has attached the
   * stored session token, decodes in the server's handler to exactly that
   * token and the form's five selections.
   */
  lemma GenerateRequestDecodes(b: RpcClient.Browser, f: Form)
    requires RpcClient.Truthy(RpcClient.StoredToken(b))
    ensures
      var request := RpcClient.Send(b, GenerateMethod, GenerateParams(f)).0;
      Admin.Fields(Decoded(request.params), Admin.GenerateKeys)
        == Decoded([RpcClient.StoredToken(b).value, f.tracker, f.campaign, f.channel, f.target, f.mode])
  {
    var request := RpcClient.Send(b, GenerateMethod, GenerateParams(f)).0;
    var p := request.params;
    var token := RpcClient.StoredToken(b).value;
    assert p == GenerateParams(f)["admin_token" := JString(token)];
    var r := Admin.Fields(Decoded(p), Admin.GenerateKeys);
    assert r.Decoded?;
    assert r.value[0] == token;
    assert r.value[1] == f.tracker;
    assert r.value[2] == f.campaign;
    assert r.value[3] == f.channel;
    assert r.value[4] == f.target;
    assert r.value[5] == f.mode;
    assert r.value == [token, f.tracker, f.campaign, f.channel, f.target, f.mode];
  }
}
