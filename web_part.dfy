/**
 * The NASA Apollo mission viewer web part: the mission-code validator used
 * by its property pane, the timeline formatter, the resolution of the
 * configured mission code, and the web part object whose lifecycle hooks
 * keep the mission-details area in step with the resolved mission.
 */
module NasaApolloMissionViewer {
  import opened Wrappers
  import opened MissionService

  // ---------------------------------------------------------------------
  // Mission-code validation
  // ---------------------------------------------------------------------

  /** The message the property pane shows for a rejected mission code. */
  const InvalidMissionCodeMessage: string := "Invalid mission code; should be 'AS-###'."

  /** The members of the pattern's three character classes, as written in it. */
  const FirstClassMembers: string := "2,5"
  const SecondClassMembers: string := "0,1"
  const DigitMembers: string := "0123456789"

  /** Members of the character class `[2,5]`: the comma is a member too. */
  predicate InFirstClass(c: char) { c == '2' || c == ',' || c == '5' }

  /** Members of the character class `[0,1]`: the comma is a member too. */
  predicate InSecondClass(c: char) { c == '0' || c == ',' || c == '1' }

  /** Members of the character class `[0-9]`. */
  predicate IsDigit(c: char) { '0' <= c <= '9' }

  /**
   * The six-character strings the pattern `AS-[2,5][0,1][0-9]` matches:
   * the literal `AS-` followed by one character of each class.
   */
  predicate IsMissionCode(w: string)
    ensures IsMissionCode(w) <==>
              |w| == 6 && w[..3] == "AS-" && w[3] in FirstClassMembers &&
              w[4] in SecondClassMembers && w[5] in DigitMembers
  {
    |w| == 6 && w[0] == 'A' && w[1] == 'S' && w[2] == '-' &&
    InFirstClass(w[3]) && InSecondClass(w[4]) && IsDigit(w[5])
  }

  /** The pattern matches `v` at position `i`. */
  predicate MatchesAt(v: string, i: int)
  {
    0 <= i && i + 6 <= |v| && IsMissionCode(v[i..i + 6])
  }

  /**
   * The pattern has no anchors, so a value matches when the pattern matches
   * at some position of it.
   */
  ghost predicate Matches(v: string)
  {
    exists i :: MatchesAt(v, i)
  }

  /**
   * The regular-expression search: the leftmost position at or after `from`
   * where the pattern matches, or `None` when it matches nowhere there.
   */
  function FindMatch(v: string, from: nat): (r: Option<nat>)
    ensures r.Some? ==> from <= r.value && MatchesAt(v, r.value)
    ensures r.Some? ==> forall j :: from <= j < r.value ==> !MatchesAt(v, j)
    ensures r.None? ==> forall j :: from <= j ==> !MatchesAt(v, j)
    decreases |v| - from
  {
    if |v| < from + 6 then None
    else if IsMissionCode(v[from..from + 6]) then Some(from)
    else FindMatch(v, from + 1)
  }

  /**
   * The property pane's validator: the empty string accepts the value, the
   * fixed message rejects it. A value is accepted exactly when the pattern
   * matches somewhere in it.
   */
  function ValidateMissionCode(value: string): (message: string)
    ensures message == "" <==> Matches(value)
    ensures message != "" ==> message == InvalidMissionCodeMessage
  {
    if FindMatch(value, 0).Some? then "" else InvalidMissionCodeMessage
  }

  /** Acceptance, stated as "some substring is a mission code". */
  lemma {:induction false} AcceptedIffContainsCode(v: string)
    ensures ValidateMissionCode(v) == "" <==>
            exists p: string, w: string, q: string :: v == p + w + q && IsMissionCode(w)
  {
    if ValidateMissionCode(v) == "" {
      var i :| MatchesAt(v, i);
      assert v == v[..i] + v[i..i + 6] + v[i + 6..];
    }
    if exists p: string, w: string, q: string :: v == p + w + q && IsMissionCode(w) {
      var p: string, w: string, q: string :| v == p + w + q && IsMissionCode(w);
      assert v[|p|..|p| + 6] == w;
      assert MatchesAt(v, |p|);
    }
  }

  /** The match is unanchored: text around an accepted value keeps it accepted. */
  lemma {:induction false} AcceptedUnderExtension(p: string, v: string, q: string)
    requires ValidateMissionCode(v) == ""
    ensures ValidateMissionCode(p + v + q) == ""
  {
    var i :| MatchesAt(v, i);
    assert (p + v + q)[|p| + i..|p| + i + 6] == v[i..i + 6];
    assert MatchesAt(p + v + q, |p| + i);
  }

  /** Fewer than six characters can never be accepted. */
  lemma ShortValueRejected(v: string)
    requires |v| < 6
    ensures ValidateMissionCode(v) == InvalidMissionCodeMessage
  {
  }

  /** The default mission code, Apollo 11's `AS-506`, is accepted. */
  lemma DefaultCodeAccepted()
    ensures ValidateMissionCode("AS-506") == ""
  {
  }

  /** Codes outside the classes, or with the wrong prefix, are rejected. */
  lemma OtherCodesRejected()
    ensures ValidateMissionCode("AS-999") == InvalidMissionCodeMessage
    ensures ValidateMissionCode("XX-506") == InvalidMissionCodeMessage
    ensures ValidateMissionCode("") == InvalidMissionCodeMessage
    ensures ValidateMissionCode("AS-###") == InvalidMissionCodeMessage
  {
  }

  /** Commas are class members, and any surrounding text is allowed. */
  lemma CommasAndSurroundingTextAccepted()
    ensures ValidateMissionCode("AS-,,0") == ""
    ensures ValidateMissionCode("xAS-201y") == ""
  {
    assert MatchesAt("xAS-201y", 1);
  }

  // ---------------------------------------------------------------------
  // Timeline
  // ---------------------------------------------------------------------

  /** The separator between launch and end date. */
  const TimelineSeparator: string := " - "

  /**
   * The mission's duration as displayed: the launch date, followed by the
   * separator and the end date when there is an end date.
   */
  function MissionTimeLine(mission: Mission): (r: string)
    ensures mission.launchDate <= r
    ensures r == mission.launchDate <==> mission.endDate == ""
  {
    if mission.endDate != "" then mission.launchDate + TimelineSeparator + mission.endDate
    else mission.launchDate
  }

  /**
   * The timeline starts with the launch date; what follows it is empty when
   * the end date is empty and is the separator and the end date otherwise.
   */
  lemma TimelineShape(mission: Mission)
    ensures |mission.launchDate| <= |MissionTimeLine(mission)|
    ensures MissionTimeLine(mission)[..|mission.launchDate|] == mission.launchDate
    ensures MissionTimeLine(mission)[|mission.launchDate|..] ==
            if mission.endDate == "" then "" else TimelineSeparator + mission.endDate
  {
  }

  /**
   * Once the launch date is known, the timeline gives back the end date:
   * two missions with the same launch date and the same timeline have the
   * same end date. The launch date is needed: a launch date that itself
   * contains the separator and has no end date would read like a launch
   * date followed by an end date.
   */
  lemma {:induction false} TimelineDeterminesEndDate(m1: Mission, m2: Mission)
    requires m1.launchDate == m2.launchDate
    requires MissionTimeLine(m1) == MissionTimeLine(m2)
    ensures m1.endDate == m2.endDate
  {
    TimelineShape(m1);
    TimelineShape(m2);
    var rest := MissionTimeLine(m1)[|m1.launchDate|..];
    if m1.endDate != "" && m2.endDate != "" {
      assert rest == TimelineSeparator + m1.endDate == TimelineSeparator + m2.endDate;
      assert m1.endDate == rest[3..] == m2.endDate;
    }
  }

  /** The two display forms for Apollo 11's dates. */
  lemma TimelineExamples()
    ensures MissionTimeLine(Mission("AS-506", "Apollo 11", "1969-07-16", "1969-07-24", ""))
         == "1969-07-16 - 1969-07-24"
    ensures MissionTimeLine(Mission("AS-506", "Apollo 11", "1969-07-16", "", ""))
         == "1969-07-16"
  {
  }

  // ---------------------------------------------------------------------
  // Resolution of the configured mission
  // ---------------------------------------------------------------------

  /**
   * The web part's configuration. `selectedMission` is `None` when the
   * property is unset (`undefined` or `null`).
   */
  datatype Properties = Properties(description: string, selectedMission: Option<string>)

  /** The mission shown when none is configured: Apollo 11. */
  const DefaultMissionCode: string := "AS-506"

  /**
   * The code that is looked up: the configured one when it is set and
   * non-empty (a truthy string), the default otherwise.
   */
  function SelectedMissionCode(properties: Properties): (code: string)
    ensures code != ""
    ensures properties.selectedMission.Some? && properties.selectedMission.value != "" ==>
              code == properties.selectedMission.value
    ensures properties.selectedMission.None? || properties.selectedMission.value == "" ==>
              code == DefaultMissionCode
  {
    match properties.selectedMission
    case Some(code) => if code != "" then code else DefaultMissionCode
    case None => DefaultMissionCode
  }

  /** The configured mission's record, or `None` when the code is unknown. */
  function GetSelectedMission(missions: MissionTable, properties: Properties): (r: Option<Mission>)
    ensures r.Some? <==> SelectedMissionCode(properties) in missions
    ensures r.Some? ==> r.value == missions[SelectedMissionCode(properties)]
  {
    GetMission(missions, SelectedMissionCode(properties))
  }

  /**
   * An unset or empty mission code resolves, whatever the description, as
   * the configured code `AS-506` does.
   */
  lemma UnsetCodeResolvesAsDefault(missions: MissionTable, properties: Properties)
    requires properties.selectedMission.None? || properties.selectedMission == Some("")
    ensures GetSelectedMission(missions, properties)
         == GetSelectedMission(missions, properties.(selectedMission := Some(DefaultMissionCode)))
  {
  }

  /** A non-empty configured code is looked up unchanged. */
  lemma ConfiguredCodeLookedUpUnchanged(missions: MissionTable, properties: Properties, code: string)
    requires code != "" && properties.selectedMission == Some(code)
    ensures GetSelectedMission(missions, properties) == GetMission(missions, code)
  {
  }

  // ---------------------------------------------------------------------
  // The web part object
  // ---------------------------------------------------------------------

  /** What the mission-details area shows: nothing, or one mission's details. */
  datatype DetailsState = Empty | Populated(mission: Mission)

  /** The area that goes with a resolved mission, or with none. */
  function DetailsFor(selected: Option<Mission>): (s: DetailsState)
    ensures s.Populated? <==> selected.Some?
    ensures s.Populated? ==> s.mission == selected.value
  {
    match selected
    case Some(m) => Populated(m)
    case None => Empty
  }

  /** The element with class `apolloMissionDetails` that the details are written into. */
  class MissionDetailElement {
    var state: DetailsState

    /** The element as `render` writes it: an empty `div`. */
    constructor ()
      ensures state == Empty
    {
      state := Empty;
    }
  }

  class NasaApolloMissionViewerWebPart {
    /** The mission collection the service answers from; it never changes. */
    const missions: MissionTable
    /** The configuration, written by the host. */
    var properties: Properties
    var selectedMission: Option<Mission>
    var missionDetailElement: MissionDetailElement?

    /** The web part as the host creates it: no mission yet, nothing rendered. */
    constructor (missions: MissionTable, properties: Properties)
      ensures this.missions == missions && this.properties == properties
      ensures selectedMission.None? && missionDetailElement == null
    {
      this.missions := missions;
      this.properties := properties;
      selectedMission := None;
      missionDetailElement := null;
    }

    /** `onInit`: resolve the configured mission. */
    method OnInit()
      modifies this`selectedMission
      ensures selectedMission == GetSelectedMission(missions, properties)
    {
      selectedMission := GetSelectedMission(missions, properties);
    }

    /**
     * `render`: rewrite the page, which creates a new details element, and
     * fill it with the selected mission or leave it empty.
     */
    method Render()
      modifies this`missionDetailElement
      ensures fresh(missionDetailElement)
      ensures missionDetailElement != null
      ensures missionDetailElement.state == DetailsFor(selectedMission)
    {
      var element := new MissionDetailElement();
      missionDetailElement := element;
      if selectedMission.Some? {
        RenderMissionDetails(element, selectedMission.value);
      } else {
        element.state := Empty;
      }
    }

    /** `_renderMissionDetails`: write one mission's details into `element`. */
    method RenderMissionDetails(element: MissionDetailElement, mission: Mission)
      modifies element
      ensures element.state == Populated(mission)
    {
      element.state := Populated(mission);
    }

    /**
     * `onAfterPropertyPaneChangesApplied`: re-resolve the mission from the
     * applied configuration and rewrite the existing details element.
     * The host renders the web part before any property-pane change is
     * applied, so the element exists.
     */
    method OnAfterPropertyPaneChangesApplied()
      requires missionDetailElement != null
      modifies this`selectedMission, missionDetailElement
      ensures selectedMission == GetSelectedMission(missions, properties)
      ensures missionDetailElement == old(missionDetailElement)
      ensures missionDetailElement.state == DetailsFor(selectedMission)
    {
      selectedMission := GetSelectedMission(missions, properties);
      if selectedMission.Some? {
        RenderMissionDetails(missionDetailElement, selectedMission.value);
      } else {
        missionDetailElement.state := Empty;
      }
    }
  }

  /**
   * A host session: create the web part with no mission configured,
   * initialise and render it, then offer `code` in the property pane. The
   * host commits the code only when the validator accepts it, and then
   * applies the change.
   */
  method ConfigurationSession(missions: MissionTable, description: string, code: string)
    returns (before: DetailsState, after: DetailsState)
    ensures before == DetailsFor(GetMission(missions, DefaultMissionCode))
    ensures ValidateMissionCode(code) == "" ==> after == DetailsFor(GetMission(missions, code))
    ensures ValidateMissionCode(code) != "" ==> after == before
  {
    var part := new NasaApolloMissionViewerWebPart(missions, Properties(description, None));
    part.OnInit();
    part.Render();
    before := part.missionDetailElement.state;
    if ValidateMissionCode(code) == "" {
      assert code != "" by { var i :| MatchesAt(code, i); }
      part.properties := Properties(description, Some(code));
    }
    part.OnAfterPropertyPaneChangesApplied();
    after := part.missionDetailElement.state;
  }
}
