/**
 * The pure parts of the channels page: the editable tag rows and the tags
 * object they submit, the campaign option lists, the filter bar and the
 * request it issues, and the fallback display names.
 */
module ChannelsPage {
  import opened Wrappers
  import opened Json
  import opened Models
  import opened Js

  /** One editable `key = value` row of the create form. */
  datatype TagRow = TagRow(key: string, value: string)

  /** The "+ Add Tag" button: one blank row at the end. */
  function AddTagRow(rows: seq<TagRow>): (r: seq<TagRow>)
    ensures |r| == |rows| + 1
    ensures r[..|rows|] == rows
    ensures r[|rows|] == TagRow("", "")
  {
    rows + [TagRow("", "")]
  }

  /**
   * Deleting a tag row: the row at index `i` goes, the others keep their
   * order; an index that names no row changes nothing.
   */
  function RemoveTagRow(rows: seq<TagRow>, i: int): (r: seq<TagRow>)
    ensures 0 <= i < |rows| ==> r == rows[..i] + rows[i + 1..]
    ensures !(0 <= i < |rows|) ==> r == rows
    decreases |rows|
  {
    if |rows| == 0 then []
    else
      var last := |rows| - 1;
      var init := RemoveTagRow(rows[..last], i);
      if i == last then init
      else
        assert 0 <= i < last ==> rows[..last][..i] + rows[..last][i + 1..] + [rows[last]] == rows[..i] + rows[i + 1..];
        assert !(0 <= i < last) ==> rows[..last] + [rows[last]] == rows;
        init + [rows[last]]
  }

  /** Which field of a row an input edits. */
  datatype Field = Key | Value

  /**
   * Editing one field of row `i`. The page only edits rows it shows; an
   * index past the end would make the browser throw, which is `None` here.
   */
  function UpdateTagRow(rows: seq<TagRow>, i: int, field: Field, text: string): (r: Option<seq<TagRow>>)
    ensures r.Some? <==> 0 <= i < |rows|
    ensures r.Some? ==> |r.value| == |rows| && forall j :: 0 <= j < |rows| && j != i ==> r.value[j] == rows[j]
    ensures r.Some? && field == Key ==> r.value[i] == TagRow(text, rows[i].value)
    ensures r.Some? && field == Value ==> r.value[i] == TagRow(rows[i].key, text)
  {
    if 0 <= i < |rows| then
      var row := if field == Key then rows[i].(key := text) else rows[i].(value := text);
      Some(rows[i := row])
    else None
  }

  /**
   * The `tags` object `handleCreate` submits: each row with a non-empty key
   * in turn sets `tags[key] = value`.
   */
  function Tags(rows: seq<TagRow>): (m: map<string, string>)
    ensures "" !in m
    decreases |rows|
  {
    if |rows| == 0 then map[]
    else
      var last := rows[|rows| - 1];
      var m := Tags(rows[..|rows| - 1]);
      if last.key != "" then m[last.key := last.value] else m
  }

  /** The submitted keys are exactly the non-empty keys of the rows. */
  lemma {:induction false} TagsKeys(rows: seq<TagRow>)
    ensures forall k :: k in Tags(rows) ==> exists i :: 0 <= i < |rows| && rows[i].key == k
    ensures forall i :: 0 <= i < |rows| && rows[i].key != "" ==> rows[i].key in Tags(rows)
    decreases |rows|
  {
    if |rows| > 0 {
      var init := rows[..|rows| - 1];
      TagsKeys(init);
      assert forall i :: 0 <= i < |init| ==> init[i] == rows[i];
    }
  }

  /** A key's value in the tags is the value of the last row with that key. */
  lemma {:induction false} TagsLastRowWins(rows: seq<TagRow>, i: int)
    requires 0 <= i < |rows| && rows[i].key != ""
    requires forall j :: i < j < |rows| ==> rows[j].key != rows[i].key
    ensures rows[i].key in Tags(rows) && Tags(rows)[rows[i].key] == rows[i].value
    decreases |rows|
  {
    if i < |rows| - 1 {
      var init := rows[..|rows| - 1];
      assert init[i] == rows[i];
      TagsLastRowWins(init, i);
    }
  }

  /** Rows appended to two lists with the same tags keep their tags equal. */
  lemma {:induction false} TagsExtend(a: seq<TagRow>, b: seq<TagRow>, more: seq<TagRow>)
    requires Tags(a) == Tags(b)
    ensures Tags(a + more) == Tags(b + more)
    decreases |more|
  {
    if |more| == 0 {
      assert a + more == a;
      assert b + more == b;
    } else {
      var init := more[..|more| - 1];
      var sa := a + more;
      var sb := b + more;
      assert sa[..|sa| - 1] == a + init;
      assert sb[..|sb| - 1] == b + init;
      TagsExtend(a, b, init);
    }
  }

  /** Rows with an empty key, wherever they are, do not change the tags. */
  lemma EmptyKeyRowIgnored(rows: seq<TagRow>, v: string, more: seq<TagRow>)
    ensures Tags(rows + [TagRow("", v)] + more) == Tags(rows + more)
  {
    var withBlank := rows + [TagRow("", v)];
    assert withBlank[..|withBlank| - 1] == rows;
    TagsExtend(withBlank, rows, more);
  }

  /** A freshly added blank row does not change what is submitted. */
  lemma AddedRowSubmitsNothing(rows: seq<TagRow>)
    ensures Tags(AddTagRow(rows)) == Tags(rows)
  {
    EmptyKeyRowIgnored(rows, "", []);
    assert rows + [TagRow("", "")] + [] == AddTagRow(rows);
    assert rows + [] == rows;
  }

  /** The campaign filter of the page: no tracker keeps every campaign, else only that tracker's. */
  function ForTracker(tracker: string): Campaign -> bool {
    (c: Campaign) => tracker == "" || c.trackerId == tracker
  }

  /**
   * The campaign choices: every campaign when no tracker is chosen, else
   * the chosen tracker's, in order.
   */
  function CampaignsFor(campaigns: seq<Campaign>, tracker: string): (r: seq<Campaign>)
    ensures tracker == "" ==> r == campaigns
    ensures forall i :: 0 <= i < |r| ==> r[i] in campaigns && (tracker == "" || r[i].trackerId == tracker)
    ensures forall i :: 0 <= i < |campaigns| && campaigns[i].trackerId == tracker ==> campaigns[i] in r
  {
    assert tracker == "" ==> Filter(campaigns, ForTracker(tracker)) == campaigns by {
      if tracker == "" {
        FilterKeepsAll(campaigns, ForTracker(tracker));
      }
    }
    Filter(campaigns, ForTracker(tracker))
  }

  /** One campaign is offered exactly when no tracker is chosen or it belongs to the chosen one. */
  lemma CampaignsForOne(c: Campaign, tracker: string)
    ensures CampaignsFor([c], tracker) == if tracker == "" || c.trackerId == tracker then [c] else []
  {
    assert [c][..0] == [];
  }

  /**
   * The choices of two lists run together are the choices of each, in
   * order; with `CampaignsForOne` this fixes the list, order included.
   */
  lemma CampaignsForAppend(a: seq<Campaign>, b: seq<Campaign>, tracker: string)
    ensures CampaignsFor(a + b, tracker) == CampaignsFor(a, tracker) + CampaignsFor(b, tracker)
  {
    FilterAppend(a, b, ForTracker(tracker));
  }

  /** The filter bar: a tracker and a campaign id, "" meaning "all". */
  datatype Filters = Filters(tracker: string, campaign: string)

  /** Choosing a tracker filter (or "All trackers") always clears the campaign filter. */
  function SelectTrackerFilter(f: Filters, tracker: string): (r: Filters)
    ensures r.tracker == tracker && r.campaign == ""
  {
    Filters(tracker, "")
  }

  /** Choosing a campaign filter leaves the tracker filter alone. */
  function SelectCampaignFilter(f: Filters, campaign: string): (r: Filters)
    ensures r.tracker == f.tracker && r.campaign == campaign
  {
    f.(campaign := campaign)
  }

  /** The parameters of the channel list request: only the filters that are set. */
  function ListParams(f: Filters): (p: JsonObject)
    ensures "tracker_id" in p <==> f.tracker != ""
    ensures "campaign_id" in p <==> f.campaign != ""
    ensures "tracker_id" in p ==> p["tracker_id"] == JString(f.tracker)
    ensures "campaign_id" in p ==> p["campaign_id"] == JString(f.campaign)
    ensures forall k :: k in p ==> k == "tracker_id" || k == "campaign_id"
  {
    var p := if f.tracker != "" then map["tracker_id" := JString(f.tracker)] else map[];
    if f.campaign != "" then p["campaign_id" := JString(f.campaign)] else p
  }

  /** After a tracker filter change the request never names a campaign. */
  lemma TrackerChangeDropsCampaign(f: Filters, tracker: string)
    ensures "campaign_id" !in ListParams(SelectTrackerFilter(f, tracker))
  {
  }

  /**
   * The label of an id in the tables: the name of the first entity with
   * that id, otherwise the id's first eight characters.
   */
  function DisplayName(named: seq<(string, string)>, id: string): (r: string)
    ensures (forall i :: 0 <= i < |named| ==> named[i].0 != id) ==> r == SliceTo(id, 8)
    ensures (exists i :: 0 <= i < |named| && named[i].0 == id) ==>
      exists i :: 0 <= i < |named| && named[i].0 == id && r == named[i].1
        && forall j :: 0 <= j < i ==> named[j].0 != id
    decreases |named|
  {
    if |named| == 0 then SliceTo(id, 8)
    else if named[0].0 == id then named[0].1
    else
      var r := DisplayName(named[1..], id);
      assert forall i :: 1 <= i < |named| ==> named[1..][i - 1] == named[i];
      r
  }

  /** Each entity as its `(id, name)` pair, in list order. */
  function NamePairs<T>(xs: seq<T>, id: T -> string, name: T -> string): (r: seq<(string, string)>)
    ensures |r| == |xs|
    ensures forall i :: 0 <= i < |xs| ==> r[i] == (id(xs[i]), name(xs[i]))
  {
    seq(|xs|, i requires 0 <= i < |xs| => (id(xs[i]), name(xs[i])))
  }

  /** A tracker id is shown as the name of the first tracker with that id. */
  lemma TrackerDisplayName(trackers: seq<Tracker>, i: nat)
    requires i < |trackers|
    requires forall j :: 0 <= j < i ==> trackers[j].id != trackers[i].id
    ensures DisplayName(NamePairs(trackers, (t: Tracker) => t.id, (t: Tracker) => t.name), trackers[i].id)
      == trackers[i].name
  {
    var named := NamePairs(trackers, (t: Tracker) => t.id, (t: Tracker) => t.name);
    var id := trackers[i].id;
    assert named[i].0 == id;
    var k :| 0 <= k < |named| && named[k].0 == id && DisplayName(named, id) == named[k].1
      && forall j :: 0 <= j < k ==> named[j].0 != id;
    assert named[k] == (trackers[k].id, trackers[k].name);
  }

  /** A display name is never longer than eight characters unless it is a real name. */
  lemma FallbackIsShortPrefix(named: seq<(string, string)>, id: string)
    requires forall i :: 0 <= i < |named| ==> named[i].0 != id
    ensures |DisplayName(named, id)| <= 8
    ensures DisplayName(named, id) == id[..|DisplayName(named, id)|]
  {
  }
}
