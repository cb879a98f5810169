# NASA Apollo mission viewer — a Dafny model

This project models the logic of the SharePoint Framework web part
`NasaApolloMissionViewerWebPart`, which shows facts about one Apollo mission
chosen through a text field of its property pane. Four pieces are modelled:

- the property pane's **mission-code validator**, which accepts a value
  exactly when the unanchored pattern `AS-[2,5][0,1][0-9]` occurs somewhere
  in it. Inside a character class the comma is a literal member, so
  `AS-,,0` is accepted. Because there are no anchors, `xAS-201y` is
  accepted too;
- the **timeline formatter**, which joins launch and end date with ` - `, or
  shows the launch date alone when the end date is empty;
- the **resolution** of the configured code: an unset or empty code falls
  back to `AS-506` (Apollo 11), and the code is then looked up in the
  mission service;
- the **web part object**, whose `onInit`, `render` and
  `onAfterPropertyPaneChangesApplied` hooks hold the resolved mission in a
  field and set the mission-details area to `Populated(m)` when a mission
  is resolved and to `Empty` otherwise.

Files:

- `wrappers.dfy` (module `Wrappers`): the `Option` type, for the `null` the
  service returns and the web part stores.
- `mission_service.dfy` (module `MissionService`): the mission record and the
  lookup. The service's data is not part of the source shown, so it is an
  injected, read-only `map` from code to record.
- `web_part.dfy` (module `NasaApolloMissionViewer`): the validator, the
  timeline, the resolution, the web part class and the element class for the
  details area, and a host session used as a client of the class.

The regular-expression search is modelled as a recursive leftmost search,
`FindMatch`, over the six-character windows of the value. It is proved
against a declarative definition, `Matches`: some window is a mission code.
`String.prototype.match` with a global pattern returns `null` exactly when
there is no match, so the validator only needs whether a first match exists.

Three points about these semantics, read off the code:

- The classes `[2,5]` and `[0,1]` also contain the comma
  (src/webparts/nasaApolloMissionViewer/NasaApolloMissionViewerWebPart.ts:167),
  so `AS-,,0` is accepted.
- `end_date` is compared with `''`
  (src/webparts/nasaApolloMissionViewer/NasaApolloMissionViewerWebPart.ts:89),
  so both dates are modelled as strings.
- The web part itself does not keep the old mission when a rejected code
  such as `ZZ-000` is offered; that is the host's doing, because the host
  commits only values the validator accepts
  (src/webparts/nasaApolloMissionViewer/NasaApolloMissionViewerWebPart.ts:117-120).
  `ConfigurationSession` plays the host: it commits a code only when
  `ValidateMissionCode` returns `""`, then calls the hook.

## Model

| member | source | states |
|---|---|---|
| `MissionService.GetMission` | src/webparts/nasaApolloMissionViewer/NasaApolloMissionViewerWebPart.ts:70 | the lookup finds a record exactly when the code is a key; a present key gives back the stored record unchanged; a missing key gives `None`, not an error |
| `NasaApolloMissionViewer.IsMissionCode` | src/webparts/nasaApolloMissionViewer/NasaApolloMissionViewerWebPart.ts:167 | a six-character string is matched by the pattern exactly when it starts with `AS-` and its last three characters are members of `2,5`, of `0,1` and of `0123456789` in turn |
| `NasaApolloMissionViewer.FindMatch` | src/webparts/nasaApolloMissionViewer/NasaApolloMissionViewerWebPart.ts:167-168 | the search returns the leftmost position at or after `from` where a window is a mission code, with no match before it; `None` means no such position exists |
| `NasaApolloMissionViewer.ValidateMissionCode` | src/webparts/nasaApolloMissionViewer/NasaApolloMissionViewerWebPart.ts:166-171 | the result is `""` if and only if some six-character window reads `AS-`, one of `2 , 5`, one of `0 , 1`, a digit; otherwise it is exactly the fixed error message |
| `NasaApolloMissionViewer.AcceptedIffContainsCode` | src/webparts/nasaApolloMissionViewer/NasaApolloMissionViewerWebPart.ts:167-168 | a value is accepted if and only if it can be split as `p + w + q` with `w` a six-character mission code |
| `NasaApolloMissionViewer.AcceptedUnderExtension` | src/webparts/nasaApolloMissionViewer/NasaApolloMissionViewerWebPart.ts:167-168 | the pattern has no anchors: if `v` is accepted, so is `p + v + q` for any `p` and `q` |
| `NasaApolloMissionViewer.ShortValueRejected` | src/webparts/nasaApolloMissionViewer/NasaApolloMissionViewerWebPart.ts:166-171 | every value shorter than six characters is rejected with the error message |
| `NasaApolloMissionViewer.DefaultCodeAccepted` | src/webparts/nasaApolloMissionViewer/NasaApolloMissionViewerWebPart.ts:167-170 | `AS-506` is accepted |
| `NasaApolloMissionViewer.OtherCodesRejected` | src/webparts/nasaApolloMissionViewer/NasaApolloMissionViewerWebPart.ts:167-170 | `AS-999`, `XX-506`, the empty string, and the message's own example `AS-###` are rejected |
| `NasaApolloMissionViewer.CommasAndSurroundingTextAccepted` | src/webparts/nasaApolloMissionViewer/NasaApolloMissionViewerWebPart.ts:167-168 | `AS-,,0` (commas as class members) and `xAS-201y` (text around the code) are accepted |
| `NasaApolloMissionViewer.MissionTimeLine` | src/webparts/nasaApolloMissionViewer/NasaApolloMissionViewerWebPart.ts:88-93 | the launch date is a prefix of the timeline, and the timeline is the launch date alone exactly when the end date is empty |
| `NasaApolloMissionViewer.TimelineShape` | src/webparts/nasaApolloMissionViewer/NasaApolloMissionViewerWebPart.ts:88-93 | the timeline begins with the launch date; the rest is empty when the end date is empty, and ` - ` followed by the end date otherwise |
| `NasaApolloMissionViewer.TimelineDeterminesEndDate` | src/webparts/nasaApolloMissionViewer/NasaApolloMissionViewerWebPart.ts:88-92 | given the launch date, the timeline determines the end date, including whether it is empty; without the launch date it would not, since a launch date containing ` - ` reads like a launch date and an end date |
| `NasaApolloMissionViewer.TimelineExamples` | src/webparts/nasaApolloMissionViewer/NasaApolloMissionViewerWebPart.ts:88-92 | Apollo 11's dates render as `1969-07-16 - 1969-07-24`, and as `1969-07-16` when the end date is empty |
| `NasaApolloMissionViewer.SelectedMissionCode` | src/webparts/nasaApolloMissionViewer/NasaApolloMissionViewerWebPart.ts:64-67 | the code looked up is never empty; it is the configured code when that is set and non-empty, and `AS-506` otherwise |
| `NasaApolloMissionViewer.GetSelectedMission` | src/webparts/nasaApolloMissionViewer/NasaApolloMissionViewerWebPart.ts:63-71 | a mission is resolved exactly when the effective code is in the collection, and it is that code's stored record |
| `NasaApolloMissionViewer.UnsetCodeResolvesAsDefault` | src/webparts/nasaApolloMissionViewer/NasaApolloMissionViewerWebPart.ts:65-70 | an unset or empty configured code resolves, for any collection, as the configured code `AS-506` does |
| `NasaApolloMissionViewer.ConfiguredCodeLookedUpUnchanged` | src/webparts/nasaApolloMissionViewer/NasaApolloMissionViewerWebPart.ts:65-70 | a non-empty configured code is passed to the lookup unchanged |
| `NasaApolloMissionViewer.DetailsFor` | src/webparts/nasaApolloMissionViewer/NasaApolloMissionViewerWebPart.ts:56-60 | the details area is populated exactly when a mission is resolved, and then with that mission |
| `NasaApolloMissionViewer.MissionDetailElement.constructor` | src/webparts/nasaApolloMissionViewer/NasaApolloMissionViewerWebPart.ts:48-54 | the details element that `render` writes starts out empty |
| `NasaApolloMissionViewer.NasaApolloMissionViewerWebPart.constructor` | src/webparts/nasaApolloMissionViewer/NasaApolloMissionViewerWebPart.ts:22-25 | a new web part keeps the given collection and configuration, has no mission and no details element |
| `NasaApolloMissionViewer.NasaApolloMissionViewerWebPart.OnInit` | src/webparts/nasaApolloMissionViewer/NasaApolloMissionViewerWebPart.ts:27-37 | initialisation sets the selected mission to the resolution of the configuration and changes nothing else |
| `NasaApolloMissionViewer.NasaApolloMissionViewerWebPart.Render` | src/webparts/nasaApolloMissionViewer/NasaApolloMissionViewerWebPart.ts:39-61 | rendering replaces the details element with a fresh one, populated with the selected mission or empty; the selected mission and the configuration are unchanged |
| `NasaApolloMissionViewer.NasaApolloMissionViewerWebPart.RenderMissionDetails` | src/webparts/nasaApolloMissionViewer/NasaApolloMissionViewerWebPart.ts:73-86 | the given element shows the given mission afterwards; nothing else changes |
| `NasaApolloMissionViewer.NasaApolloMissionViewerWebPart.OnAfterPropertyPaneChangesApplied` | src/webparts/nasaApolloMissionViewer/NasaApolloMissionViewerWebPart.ts:177-187 | the selected mission is re-resolved from the configuration; the same details element is rewritten to match it, populated or empty; the configuration and the element reference are unchanged |
| `NasaApolloMissionViewer.ConfigurationSession` | src/webparts/nasaApolloMissionViewer/NasaApolloMissionViewerWebPart.ts:177-187 | with no code configured, the first render shows `AS-506`'s record (or nothing if it is absent); after offering a code, the area shows that code's record when the validator accepts it, and is unchanged when it rejects it |

## Left out

- HTML markup and DOM writes (`innerHTML`, `getElementsByClassName`): the details area is the abstract state `Empty` or `Populated(m)`. The markup `_renderMissionDetails` writes is not modelled, only which mission it shows.
- The outer markup of `render`, with the escaped description: the description is kept in the configuration but its display is not modelled.
- The lodash `escape` function: it is a foreign library and is not modelled. Note that `wiki_href` is written into the link unescaped, so not all output is escaped.
- `getPropertyPaneConfiguration`: a static UI configuration object with no logic. Only the validator it attaches is modelled.
- The framework base class, the `Promise` around `onInit`, `dataVersion` (`Version.parse`) and `disableReactivePropertyChanges`: lifecycle plumbing of the host.
- The host's rule that a rejected value is not committed: the property pane enforces it, not this code. Only `ConfigurationSession` plays that host.
- The mission service's data and the mission record's declaration are not part of the source shown. The collection is an injected map, and a record has five string fields.
- `Date.toString()` depends on locale and runtime: both dates are strings.
- The styles module and the localisation strings: resources with no logic.
- FindMatch: the global pattern's list of all non-overlapping matches is not built. Only whether a first match exists affects the result.
- Strings are sequences of Dafny characters, not of UTF-16 code units. The pattern is all ASCII, so which values it accepts is the same.
- NasaApolloMissionViewerWebPart.OnAfterPropertyPaneChangesApplied: requires that `render` has already created the details element. The host renders before it applies property-pane changes; otherwise the source would fail on a null element.
