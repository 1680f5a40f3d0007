# DCS Waypoint Editor: the cockpit drivers, profiles, button hook and preferences

DCS Waypoint Editor takes a profile and enters it into an aircraft in DCS World. A profile is a list of waypoints and precise-position missions (MSNs), plus an optional avionics setup for the F-16C. To enter it, the editor presses cockpit controls through DCS-BIOS. Each press is a UDP datagram such as `UFC_1 1\n` and then `UFC_1 0\n`. This project models the following:

- **The drivers** (`src/drivers.py`). There is one driver per airframe: F/A-18C Hornet, AV-8B Harrier, Mirage 2000C, F-14 Tomcat, A-10C Warthog and F-16C Viper.
  - Each is a class over a shared `Driver` base object. The base object records everything sent, as a `sent` trace of datagrams and keystrokes.
  - The command queue and the progress queue of the background operation are modelled as sequences.
  - Every driver's `enter_all` is proved against a *plan*: a list of steps (presses, progress advances, exceptions and the closing advance), run by `Runs.Exec`. Each method's `ensures` states that its new trace, queues and progress are those of running its plan. Lemmas about the plans then state what `enter_all` promises:
    - which keys are pressed, in which order, for each waypoint, sequence, MSN and avionics page;
    - the clamping of negative elevations;
    - the 63-channel offset of a TACAN wingman;
    - the Hornet's mission order;
    - the Warthog's name sanitising;
    - the steerpoint back-up of the F-16C;
    - a cancelled run never publishes `DONE`, and a completed run ends with `100` and `DONE`;
    - every published percentage stays below 100 until the closing advance, for every airframe except a Hornet profile with sequence 1, whose step count misses one advance (see "## Findings").
  - The coordinate renderer `latlon_tostring` is a parameter of every driver (`Renderer`), and the number strings it produces are what the drivers type.
- **The profile objects** (`src/db_objects.py`):
  - waypoints and MSNs, with their defaults and list-box texts;
  - the plain and MSN views;
  - the sequence, station and type dictionaries;
  - the per-group renumbering;
  - the avionics-setup dictionary that `enter_all` reads.
- **The waypoint editor** (`src/wp_editor.py`): the driver table and `enter_all` handed to the driver in use.
- **The button hook** (`src/dcs_button_hook.py`). This is the scan of a DCS-BIOS export buffer for the cockpit button that asks for a profile entry. It covers the 0x55555555 delimiters, the little-endian address, length and value fields, and the watched bit.
- **GUI helpers** (`src/gui_util.py`): the strike-through text, the airframe name map and the foreground-window test.
- **The preferences object** (`src/prefs.py`): the defaults, the setters that normalise or validate, and the hotkey and callsign validators.
- **The F-16C avionics setup editor** (`src/avionics_setup_viper_gui.py`). Its MFD, TACAN, JHMCS, bullseye and CMDS-quantity widgets are encoded to the strings stored in the database and decoded back. Round trips tie those strings to what the F-16C driver enters.

## Model

| member | source | states |
|---|---|---|
| Text.ParseInt | src/avionics_setup_viper_gui.py:793-803 | Python's `int(s)` on a sign and digits, `None` for the `ValueError`; only non-empty text parses; partner `IntToStringRoundTrip` |
| Text.IntToStringRoundTrip | src/avionics_setup_viper_gui.py:601-643 | `int(str(i)) == i` for every integer, so saved integers load back unchanged |
| Text.Split | src/drivers.py:992 | at least one part, and no part holds the separator; partners `SplitJoin` and `JoinSplit` |
| Text.SplitJoin | src/drivers.py:992 | splitting a joined list gives the list back when no part holds the separator |
| Text.JoinSplit | src/drivers.py:992 | joining the parts of a split gives the text back |
| Text.ReplaceOsbFree | src/drivers.py:122-130 | the "OSB" to "OS" rewrite leaves a key without "OSB" unchanged |
| Text.ReplaceOsbUtf8Len | src/drivers.py:122-137 | each rewrite drops one byte, so the byte length is kept exactly when nothing is rewritten |
| Text.Find | src/drivers.py:202-215 | `s.find(c)`: -1 or an index below `|s|`, and -1 exactly when `c` is absent |
| Text.FindIndex | src/drivers.py:202-215 | a found index holds `c` and no `c` comes before it |
| Text.FindFirst | src/drivers.py:202-215 | conversely, the first index holding `c` is what `find` returns, and -1 means no `c` at all |
| Text.DropLast | src/drivers.py:564 | `s[:-n]`: a prefix of `s`, `n` shorter, or empty when `s` is shorter than `n` |
| Text.ZFill | src/drivers.py:191-199 | `zfill(width)`: text already `width` long is kept; shorter text keeps its leading sign, gets zeros after it up to `width`, and keeps the rest of its characters |
| Text.Upper | src/drivers.py:720 | `upper()`: same length; every ASCII lower-case letter becomes upper case; everything else is kept |
| Text.Lower | src/prefs.py:323-335 | `lower()`: same length; every ASCII upper-case letter becomes lower case; everything else is kept |
| Profiles.NewWaypoint | src/db_objects.py:75-85 | a new waypoint is plain, of type "WP", number 0, sequence 0 and not current |
| Profiles.NewMsn | src/db_objects.py:130-138 | the result is an MSN exactly when the station is not 0; its type is forced to "MSN", and every other field is kept as given |
| Profiles.Describe | src/db_objects.py:104-114 | an MSN's text starts with "MSN", its number, " \| STA" and its station, and a name ends it after " \| "; a plain one's starts with its type, its number and its `SeqTag`, then " \| [CUR]" when current or " \|" otherwise, and a name ends it after a space; the length is exactly that of these parts, so nothing else is in the text |
| Profiles.SeqTag | src/db_objects.py:107-108 | a tag exactly for a plain "WP" waypoint in a sequence, and then " \| SEQ" followed by the sequence number |
| Profiles.WaypointsAsList | src/db_objects.py:197-203 | only plain waypoints, no more than the list holds; `ViewsPartition` and `ViewsAppend` pin it down |
| Profiles.MsnsAsList | src/db_objects.py:205-207 | only MSNs, no more than the list holds; `ViewsPartition` and `ViewsAppend` pin it down |
| Profiles.ViewsPartition | src/db_objects.py:197-207 | together the two views are a permutation of the list: every element lands in exactly one |
| Profiles.ViewsAppend | src/db_objects.py:197-207 | both views distribute over concatenation, so each keeps the list order |
| Profiles.Sequences | src/db_objects.py:169-176 | strictly ascending, and holding exactly the profile's sequence identifiers |
| Profiles.InsertUnique | src/db_objects.py:169-176 | adding to an ascending list keeps it strictly ascending and adds exactly `x` |
| Profiles.PositionsOf | src/db_objects.py:227-237 | the 1-based positions of a sequence's waypoints: ascending, each holding that sequence, and all of them |
| Profiles.SequencesDict | src/db_objects.py:227-237 | the keys are exactly the profile's sequence identifiers; `SequenceItems` and `PositionsOf` give the values |
| Profiles.SequenceItems | src/db_objects.py:227-237 | the dictionary's items: identifiers ascending, each paired with its positions |
| Profiles.Members | src/db_objects.py:209-225 | only members of the group, no more than the list holds; `RenumberedMembers` numbers them |
| Profiles.StationsDictGroups | src/db_objects.py:209-216 | the station dictionary has one key per station that has an MSN, listing that station's MSNs in list order |
| Profiles.WaypointsDictGroups | src/db_objects.py:218-225 | the type dictionary has one key per type that has a plain waypoint, listing them in list order |
| Profiles.Renumbered | src/db_objects.py:245-252 | the renumbered list keeps its length; `RenumberedKeepsRest` and `NumberingPerGroup` say what changes |
| Profiles.RenumberedKeepsRest | src/db_objects.py:245-252 | renumbering changes nothing but the number of each element |
| Profiles.RenumberedMembers | src/db_objects.py:245-252 | the k-th member of a group is numbered k + 1 after renumbering, and is otherwise unchanged |
| Profiles.NumberingPerGroup | src/db_objects.py:245-252 | the MSNs of each station are numbered 1..k in list order, as are the plain waypoints of each type; nothing else changes |
| Profiles.RenumberStep | src/db_objects.py:245-252 | one step of the counter loop extends the renumbered prefix |
| Profiles.Profile.constructor | src/db_objects.py:155-164 | waypoints given at construction are renumbered at once, together with the other fields |
| Profiles.Profile.UpdateWaypointNumbers | src/db_objects.py:245-252 | the per-group counter loop leaves the waypoints equal to `Renumbered(old waypoints)` |
| Profiles.LoadAvionicsSetup | src/db_objects.py:404-413 | there is a record exactly when a name is given, it is not "DCS Default" and it is in the database; the record is the stored one |
| Profiles.ProfileAvSetup | src/db_objects.py:178-187 | no record without a setup name; with one, the profile's airframe, and a record exactly when the name is in the database |
| Profiles.DefaultsDict | src/db_objects.py:423-437 | the ten default keys with their values |
| Profiles.CopyColumns | src/db_objects.py:439-467 | a listed column is in the dictionary exactly when it is not NULL, with its value; other keys are untouched |
| Profiles.ToDict | src/db_objects.py:418-469 | `to_dict`: empty unless there is a record and the airframe is "viper"; then the ten defaults always, and each stored column exactly when it is not NULL |
| Profiles.ColumnKey | src/db_objects.py:439-467 | only the fifteen stored keys have a column, and no default key is one of them |
| Actuations.PressDatagramsShape | src/drivers.py:112-138 | a press's datagrams: none for an empty key; the key verbatim for a raw press; otherwise the rewritten key with " 1" and then " 0" |
| Actuations.Each | src/drivers.py:206-220 | one press per character; `EachPresses` says which |
| Actuations.EachPresses | src/drivers.py:206-220 | the k-th press of a per-character loop is made from the k-th character |
| Actuations.DigitsAll | src/drivers.py:206-220 | a string of digits is typed character by character |
| Runs.AdvanceRun | src/drivers.py:154-168 | `bkgnd_advance`: one command is popped; a "CANCEL" stops the run before anything is published; otherwise "DONE" runs publish 100 and "DONE", and others publish the value plus the step, storing it capped at 100 |
| Runs.ExecHalted | src/drivers.py:154-168 | a stopped run stays as it is |
| Runs.ExecActs | src/drivers.py:154-168 | presses only extend the trace of a running run |
| Runs.NoFinishNoDone | src/drivers.py:154-168 | earlier progress items are kept, and a plan without the closing advance publishes no "DONE" |
| Runs.CancelledNeverDone | src/drivers.py:154-168 | a run that ends cancelled never published "DONE" |
| Runs.FinishPublishesDone | src/drivers.py:161-168 | a run still going at the closing advance ends the progress queue with 100 and "DONE" |
| Runs.ProgressKept | src/drivers.py:154-168 | once there is a progress queue, there remains one |
| Runs.ProgressMonotone | src/drivers.py:161-168 | without the closing advance, published percentages never go down and never exceed one step beyond the stored value |
| Runs.ProgressBound | src/drivers.py:161-168 | from a reset counter, every published percentage is at most one step per advance |
| Runs.ProgressBelowHundred | src/drivers.py:161-168 | with step 100/(n+1), a body of at most n advances publishes only percentages below 100 |
| Runs.ClosedRun | src/drivers.py:154-168 | a body then the closing advance: a cancelled run publishes no "DONE", and a completed one ends with 100 and "DONE" |
| Runs.EntryProgress | src/drivers.py:154-168 | the progress promise of every `enter_all` whose body advances fewer times than its part count, at a step of 100 over the parts: below 100 before the end, no "DONE" when cancelled, 100 and "DONE" when completed |
| Runs.ProgressExact | src/drivers.py:154-168 | a run without Finish that keeps going advances its counter to exactly the step times the advances, and publishes that value |
| Runs.FullStepsReachHundred | src/drivers.py:154-168 | a body whose advances fill 100 exactly publishes 100 before the closing advance |
| Runs.StepsFill | src/drivers.py:407 | the step is positive, and the part count of steps makes exactly 100 |
| Runs.UnitShape | src/drivers.py:154-168 | a loop iteration advances exactly once and never finishes the run |
| Runs.UnitsShape | src/drivers.py:154-168 | a loop of iterations advances once per element and never finishes |
| Runs.ExecUnit | src/drivers.py:154-168 | an iteration runs its advance and then, if the run goes on, its presses |
| Runs.ExecFlatMapNext | src/drivers.py:154-168 | a loop's run extended by one more element |
| Runs.ExecFlatMapStop | src/drivers.py:154-168 | a loop whose run stopped at element i leaves what its first i+1 elements left |
| Runs.ExecAbort | src/drivers.py:401-418 | presses followed by an exception: the presses are logged and the run fails |
| Runs.ExecRaise | src/drivers.py:401-418 | an exception before any press fails the run and sends nothing |
| Runs.ExecStopped | src/drivers.py:154-168 | nothing after a stop changes the run |
| Runs.ExecFramed | src/drivers.py:154-168 | presses around a body: the head, the body, and the tail only when the run is still going |
| Runs.FramedShape | src/drivers.py:154-168 | framing a body with presses adds no advance and no closing advance |
| Drivers.CommandQueue.constructor | src/drivers.py:92-104 | a command queue holding the given items |
| Drivers.ProgressQueue.constructor | src/drivers.py:92-104 | an empty progress queue |
| Drivers.Driver.constructor | src/drivers.py:92-104 | a driver with nothing sent, the given limits and renderer, and progress at zero |
| Drivers.Driver.SendTo | src/drivers.py:125-135 | `sendto`: the datagram is appended to the trace and its UTF-8 byte count returned |
| Drivers.Driver.KeyboardKey | src/drivers.py:106-110 | one keystroke appended to the trace |
| Drivers.Driver.PressWithDelay | src/drivers.py:112-138 | the trace grows by the press's datagrams; the result is true exactly when the key is non-empty and, for a raw press, holds no "OSB" |
| Drivers.Driver.Perform | src/drivers.py:106-138 | one actuation appended to the actuation log |
| Drivers.Driver.PerformAll | src/drivers.py:106-138 | actuations appended to the log in order |
| Drivers.Driver.PressDigits | src/drivers.py:206-220 | a loop pressing the key of each digit and skipping other characters |
| Drivers.Driver.PressDigitsToPoint | src/drivers.py:206-220 | presses up to the first '.', and returns that index |
| Drivers.Driver.PressEach | src/drivers.py:206-220 | one press per character |
| Drivers.Driver.Start | src/drivers.py:401-418 | 100 split into `parts` steps, and the counter reset to zero |
| Drivers.Driver.BkgndAdvance | src/drivers.py:154-168 | the queues and status after popping are those `AdvanceRun` gives |
| Drivers.Driver.CloseRun | src/drivers.py:1227 | `bkgnd_advance(is_done=True)` after a plan: the run is that of the plan followed by the finishing step, and a stopped run is left as it is |
| Drivers.Driver.ValidateWaypoints | src/drivers.py:140-150 | the result is the type-sorted survivors of the in-place removal loop; partners `SurvivorsDropOnlyFailing`, `SurvivorsAllPass`, `SortByTypeStable` |
| Drivers.Numbered | src/drivers.py:309-321 | `enumerate(l, 1)`: each element with its 1-based position |
| Drivers.RemoveFirst | src/drivers.py:146-150 | `list.remove(x)`: one element shorter, the multiset minus one `x` |
| Drivers.SurvivorsDropOnlyFailing | src/drivers.py:146-150 | the removed elements are a sub-multiset of the input, each failing validation |
| Drivers.SurvivorsAllPass | src/drivers.py:146-150 | when every waypoint passes, nothing is removed |
| Drivers.SkipAfterRemoval | src/drivers.py:146-150 | the element right after a removed one is never examined: with a WP limit of 9, waypoints 10 and 11 leave 11 in place |
| Drivers.InsertByType | src/drivers.py:150 | insertion adds exactly `w` to the multiset; `InsertOrdered` and `InsertStable` give the order |
| Drivers.SortByType | src/drivers.py:150 | `sorted(key=wp_type)`: a permutation of the input; `SortByTypeStable` gives the order |
| Drivers.InsertOrdered | src/drivers.py:150 | inserting into a list ordered by type keeps it ordered |
| Drivers.InsertStable | src/drivers.py:150 | insertion keeps the order within every type and puts `w` last among its type |
| Drivers.SortByTypeStable | src/drivers.py:150 | a stable sort: ordered, a permutation, and the input order kept among waypoints of one type |
| Hornet.PushButtonNames | src/drivers.py:191-199 | DDI and AMPCD buttons with one digit get a leading zero; two-digit ones are kept |
| Hornet.EnsureDecimal | src/drivers.py:201-204 | the result has a '.', and the input is kept when it already had one |
| Hornet.NumberKeysAt | src/drivers.py:206-220 | the presses of `enter_number` split at the first '.' |
| Hornet.NumberOfInt | src/drivers.py:206-220 | a non-negative integer is typed digit by digit and then ENT |
| Hornet.NumberOfDecimal | src/drivers.py:206-220 | "a.b": the digits of a and ENT, then with two enters the digits of b and ENT |
| Hornet.Clamped | src/drivers.py:253-256 | the magnitude typed for a negative elevation is the smaller of `-elev` and the floor |
| Hornet.ElevationClamp | src/drivers.py:251-256 | a negative elevation is entered as "0" and then its magnitude capped at the floor; a non-negative one as its digits; ENT closes both |
| Hornet.CoordsModes | src/drivers.py:222-288 | waypoint and precise-position modes differ only in the OSBs around the numbers, the two DDI presses and the floor (2000 or 328) |
| Hornet.ExecSequence | src/drivers.py:323-340 | a sequence's run: its head presses, then the positions loop |
| Hornet.ExecWaypoints | src/drivers.py:298-345 | an `enter_waypoints` run: the opening presses, then the loops |
| Hornet.ExecWaypointsRest | src/drivers.py:309-345 | the waypoint loop, the sequence loop, then the closing presses when still running |
| Hornet.SequencesShape | src/drivers.py:323-340 | the sequence loop advances once per position plus once for sequence 1's leading 0, and never finishes |
| Hornet.WaypointsRestShape | src/drivers.py:309-340 | the loops advance once per waypoint, once per sequence position and once for sequence 1's leading 0, and never finish |
| Hornet.WaypointsShape | src/drivers.py:298-345 | the same count for the whole of `enter_waypoints`, and none without waypoints |
| Hornet.SortStationsFails | src/drivers.py:364-382 | sorting fails exactly when two or more stations are present and one is not 2, 3, 7 or 8 |
| Hornet.SortStationsKeys | src/drivers.py:374-382 | every station appears exactly once in the sorted order |
| Hornet.SortStationsRanked | src/drivers.py:364-382 | with two or more stations the order is 8, 2, 7, 3 |
| Hornet.StationKeysDict | src/drivers.py:374-379 | the grouping's keys are exactly the stations that have an MSN |
| Hornet.ExecStation | src/drivers.py:388-399 | a station's run: its MSN loop, then DDI 13 when still running |
| Hornet.ExecMissionsFail | src/drivers.py:363-382 | a non-MSN element or unsortable stations fail the run before any press |
| Hornet.ExecMissionsRun | src/drivers.py:384-399 | otherwise DDI 19 and 4 are pressed, then the station loop runs |
| Hornet.SortedInDict | src/drivers.py:381-382 | every sorted station has its list in the station dictionary |
| Hornet.StationShape | src/drivers.py:388-399 | a station advances once per MSN and never finishes |
| Hornet.GroupSize | src/drivers.py:374-379 | a station's group size, 0 for a station without MSNs |
| Hornet.StationLoopAdvances | src/drivers.py:388-399 | the station loop advances once per MSN of the stations it visits |
| Hornet.GroupsTotalRemove | src/drivers.py:384-388 | taking one station out of a list takes exactly its group out of the MSN total |
| Hornet.RemoveLast | src/drivers.py:384-388 | removing a station from both of two lists of the same distinct stations leaves two such lists |
| Hornet.GroupsTotalReorder | src/drivers.py:384-388 | sorting the stations does not change how many MSNs they hold |
| Hornet.GroupsTotalUpdate | src/drivers.py:374-379 | appending to one station's group changes the total by the difference, and only when that station is listed |
| Hornet.StationGroupsCover | src/drivers.py:374-379 | the station groups of a list of MSNs hold every MSN of it exactly once |
| Hornet.MissionsAdvances | src/drivers.py:363-399 | mission entry advances at most once per MSN, exactly once per MSN unless it fails, and not at all when it fails |
| Hornet.NoFinishMissions | src/drivers.py:363-399 | mission entry never finishes the run |
| Hornet.ExecHornet | src/drivers.py:410-416 | the `try` block: missions, an advance, waypoints, the closing advance; a stopped run ignores the rest |
| Hornet.NoFinishHornet | src/drivers.py:410-416 | the body never finishes the run before its closing advance |
| Hornet.HornetRunCloses | src/drivers.py:401-418 | a cancelled Hornet entry publishes no "DONE", and a completed one ends with 100 and "DONE" |
| Hornet.FirstSequencesCount | src/drivers.py:329-331 | with ascending identifiers, the sequences numbered 1 are one or none, one exactly when 1 is listed |
| Hornet.FirstSequenceListed | src/drivers.py:323-331 | a profile's sequences include one numbered 1 exactly when 1 is among its sequence identifiers |
| Hornet.HornetBodyAdvances | src/drivers.py:401-416 | the body of `enter_all` advances at most the counted steps plus one, plus one for sequence 1; exactly that often unless mission entry fails; and it never finishes the run |
| Hornet.HornetProgress | src/drivers.py:401-418 | without sequence 1 among the waypoints entered: below 100 before the end, no "DONE" when cancelled, 100 and "DONE" when completed |
| Hornet.HornetSequenceOneReachesHundred | src/drivers.py:290-296 | with sequence 1 among the waypoints entered and mission entry going through, a run still going before the closing advance has already published 100, so the progress promise fails |
| Hornet.HornetPartsIntended | src/drivers.py:290-296 | the part count that includes the position 0 prepended to sequence 1: the counted parts plus the missed step |
| Hornet.HornetProgressIntended | src/drivers.py:401-418 | with the intended part count, the progress promise holds for every profile |
| Hornet.HornetDriver.constructor | src/drivers.py:182-184 | a fresh driver whose limits are WP none and MSN 6 |
| Hornet.HornetDriver.EnterNumberAt | src/drivers.py:206-220 | the trace grows by `NumberKeysAt`'s presses |
| Hornet.HornetDriver.EnterNumber | src/drivers.py:206-220 | `enter_number`'s presses, characterised by `NumberOfInt` and `NumberOfDecimal` |
| Hornet.HornetDriver.EnterLat | src/drivers.py:230-237 | the latitude presses of the mode's plan |
| Hornet.HornetDriver.EnterLon | src/drivers.py:238-246 | the longitude presses of the mode's plan |
| Hornet.HornetDriver.EnterElevation | src/drivers.py:251-256 | the clamped elevation presses |
| Hornet.HornetDriver.EnterCoordsText | src/drivers.py:222-288 | the coordinates' presses once rendered |
| Hornet.HornetDriver.EnterCoords | src/drivers.py:222-288 | `enter_coords`: the trace grows by the mode's coordinate plan |
| Hornet.HornetDriver.CountSteps | src/drivers.py:290-296 | returns 0 without waypoints, otherwise the waypoints plus all sequence positions |
| Hornet.HornetDriver.EnterWaypointActs | src/drivers.py:310-321 | one waypoint's presses |
| Hornet.HornetDriver.EnterWaypointUnit | src/drivers.py:309-321 | one iteration's run: advance, then the waypoint |
| Hornet.HornetDriver.EnterWaypointList | src/drivers.py:309-321 | the waypoint loop's run equals its plan's run |
| Hornet.HornetDriver.EnterWaypointNext | src/drivers.py:309-321 | one pass of the waypoint loop extends the run by that waypoint's plan, or by the rest of the plan once it stops |
| Hornet.HornetDriver.EnterPositionActs | src/drivers.py:335-339 | one position's presses: OSB 4 and its number |
| Hornet.HornetDriver.EnterPositionUnit | src/drivers.py:335-339 | one position's run: advance, then its presses |
| Hornet.HornetDriver.EnterPositions | src/drivers.py:335-339 | the positions loop's run equals its plan's run |
| Hornet.HornetDriver.EnterPositionNext | src/drivers.py:335-339 | one pass of the positions loop extends the run by that position's plan, or by the rest once it stops |
| Hornet.HornetDriver.EnterSequenceHead | src/drivers.py:327-333 | selecting a sequence: AMPCD 15 twice for sequences after the first |
| Hornet.HornetDriver.EnterSequence | src/drivers.py:323-340 | one sequence's run per `ExecSequence` |
| Hornet.HornetDriver.EnterSequences | src/drivers.py:323-340 | the sequence loop's run equals its plan's run |
| Hornet.HornetDriver.EnterSequenceNext | src/drivers.py:323-340 | one pass of the sequence loop extends the run by that sequence's plan, or by the rest once it stops |
| Hornet.HornetDriver.EnterWaypoints | src/drivers.py:298-345 | `enter_waypoints`' run equals its plan's run |
| Hornet.HornetDriver.EnterWaypointLoops | src/drivers.py:309-345 | both loops, then the closing presses |
| Hornet.HornetDriver.EnterPpMsn | src/drivers.py:347-361 | `enter_pp_msn`: the MSN's presses |
| Hornet.HornetDriver.EnterPpMsnUnit | src/drivers.py:392-397 | one MSN's run: advance, then the MSN |
| Hornet.HornetDriver.EnterStationMsns | src/drivers.py:392-397 | a station's MSNs, numbered from 1 |
| Hornet.HornetDriver.EnterStationMsnNext | src/drivers.py:392-397 | one pass over a station's MSNs extends the run by that MSN's plan, or by the rest once it stops |
| Hornet.HornetDriver.EnterStation | src/drivers.py:388-399 | one station's run per `ExecStation` |
| Hornet.HornetDriver.EnterStations | src/drivers.py:388-399 | the station loop's run equals its plan's run |
| Hornet.HornetDriver.EnterStationNext | src/drivers.py:388-399 | one pass of the station loop extends the run by that station's plan, or by the rest once it stops |
| Hornet.HornetDriver.GroupStations | src/drivers.py:374-379 | returns the station dictionary and its keys in insertion order |
| Hornet.HornetDriver.EnterMissions | src/drivers.py:363-399 | `enter_missions`' run equals its plan's run, failure included |
| Hornet.HornetDriver.EnterSortedMissions | src/drivers.py:384-399 | DDI 19 and 4, then each station |
| Hornet.HornetDriver.EnterBody | src/drivers.py:410-416 | the `try` block's run equals `ExecHornet`'s |
| Hornet.HornetDriver.Prepare | src/drivers.py:402-408 | the validated MSNs and waypoints, the sequences, and steps + 2 parts |
| Hornet.HornetDriver.EnterAll | src/drivers.py:401-418 | `enter_all`: the trace, queues and progress are those of running the Hornet plan from a reset counter |
| Harrier.UfcKeys | src/drivers.py:433-443 | the UFC key names the plans use agree with `ufc` |
| Harrier.UfcInjective | src/drivers.py:433-443 | distinct UFC buttons never share a key |
| Harrier.NumberKeysAt | src/drivers.py:454-471 | `enter_number`'s presses split at the first '.' |
| Harrier.NumberOfNat | src/drivers.py:454-471 | a whole number: its digits and ENT, with a second ENT at once for two enters |
| Harrier.NumberOfDecimal | src/drivers.py:454-471 | "a.b": the digits of a and ENT, then with two enters the digits of b and ENT |
| Harrier.ElevationClamp | src/drivers.py:490-497 | zero is not entered; a negative elevation is entered as 0; a positive one digit by digit between ODU 3 and ENT |
| Harrier.HarrierProgress | src/drivers.py:514-524 | one advance per waypoint: below 100 before the end, no "DONE" when cancelled, 100 and "DONE" when completed |
| Harrier.HarrierDriver.constructor | src/drivers.py:429-431 | a fresh driver whose WP limit is none |
| Harrier.HarrierDriver.EnterSecondPart | src/drivers.py:465-471 | the digits after the point, then ENT |
| Harrier.HarrierDriver.EnterNumberAt | src/drivers.py:454-471 | the trace grows by `NumberKeysAt`'s presses |
| Harrier.HarrierDriver.EnterNumber | src/drivers.py:454-471 | `enter_number`'s presses |
| Harrier.HarrierDriver.EnterElevation | src/drivers.py:490-497 | the elevation presses of `ElevationClamp` |
| Harrier.HarrierDriver.EnterLat | src/drivers.py:477-481 | the latitude presses |
| Harrier.HarrierDriver.EnterLon | src/drivers.py:483-488 | the longitude presses |
| Harrier.HarrierDriver.EnterCoordsText | src/drivers.py:477-497 | the coordinates' presses once rendered |
| Harrier.HarrierDriver.EnterCoords | src/drivers.py:473-497 | `enter_coords`' presses |
| Harrier.HarrierDriver.EnterWaypointActs | src/drivers.py:503-510 | one waypoint's presses |
| Harrier.HarrierDriver.EnterWaypointUnit | src/drivers.py:502-510 | one iteration's run: advance, then the waypoint |
| Harrier.HarrierDriver.EnterWaypointNext | src/drivers.py:502-510 | the loop extended by one waypoint; a stop there is the whole loop's run |
| Harrier.HarrierDriver.EnterWaypointList | src/drivers.py:502-510 | the waypoint loop's run equals its plan's run |
| Harrier.HarrierDriver.EnterWaypoints | src/drivers.py:499-512 | `enter_waypoints`' run equals its plan's run |
| Harrier.HarrierDriver.EnterBody | src/drivers.py:519-522 | the waypoints, then the closing advance |
| Harrier.HarrierDriver.Prepare | src/drivers.py:515-518 | the validated waypoints and one part per waypoint plus one |
| Harrier.HarrierDriver.EnterAll | src/drivers.py:514-524 | `enter_all`: the run of the Harrier plan from a reset counter |
| Mirage.PcnKeys | src/drivers.py:539-547 | the PCN key names the plans use agree with `pcn` |
| Mirage.PcnNumber | src/drivers.py:539-547 | a slot number presses "INS_BTN_<i>" |
| Mirage.PcnInjective | src/drivers.py:539-547 | distinct PCN keys never share a name |
| Mirage.NumberKeysDigits | src/drivers.py:549-553 | every press but the last is the button of a digit of `s`, in order, and the last is ENTER |
| Mirage.NoDigits | src/drivers.py:549-553 | a string without digits makes no press |
| Mirage.CoordsDropTail | src/drivers.py:555-572 | the last two characters of each rendered coordinate are never typed |
| Mirage.WaypointSlot | src/drivers.py:574-582 | the k-th waypoint goes into INS slot k+1: an advance, PREP, 0, the slot key, the coordinates, ENTER |
| Mirage.MirageProgress | src/drivers.py:584-594 | one advance per waypoint: below 100 before the end, no "DONE" when cancelled, 100 and "DONE" when completed |
| Mirage.MirageDriver.constructor | src/drivers.py:535-537 | a fresh driver whose WP limit is 9 |
| Mirage.MirageDriver.EnterNumber | src/drivers.py:549-553 | `enter_number`'s presses |
| Mirage.MirageDriver.EnterLat | src/drivers.py:559-564 | the latitude presses, without the last two characters |
| Mirage.MirageDriver.EnterLon | src/drivers.py:566-572 | the longitude presses, without the last two characters |
| Mirage.MirageDriver.EnterCoords | src/drivers.py:555-572 | `enter_coords`' presses |
| Mirage.MirageDriver.EnterWaypointActs | src/drivers.py:577-582 | one numbered waypoint's presses |
| Mirage.MirageDriver.EnterWaypointUnit | src/drivers.py:575-582 | one iteration's run: advance, then the waypoint |
| Mirage.MirageDriver.EnterWaypointNext | src/drivers.py:575-582 | the loop extended by one waypoint |
| Mirage.MirageDriver.EnterWaypoints | src/drivers.py:574-582 | `enter_waypoints`' run equals its plan's run |
| Mirage.MirageDriver.EnterBody | src/drivers.py:589-592 | the waypoints, then the closing advance |
| Mirage.MirageDriver.Prepare | src/drivers.py:585-588 | the validated waypoints and the progress parts |
| Mirage.MirageDriver.EnterAll | src/drivers.py:584-594 | `enter_all`: the run of the Mirage plan from a reset counter |
| Tomcat.CapKeys | src/drivers.py:609-627 | CAP key names: digits with a category get the category name; 7, 9 and long keys get the plain prefix; TAC is raw |
| Tomcat.NumberOfNat | src/drivers.py:629-633 | a whole number: each digit on its category key, then ENTER |
| Tomcat.ElevationClamp | src/drivers.py:654-661 | zero is not entered; a negative elevation is entered as 0; a positive one digit by digit between CAP 3 and ENTER |
| Tomcat.ButtonsCoverLimits | src/drivers.py:663-679 | every type the capacity table admits has a button, and no other type has one |
| Tomcat.UnknownTypeFails | src/drivers.py:673-679 | a waypoint whose type has no button stops the run right after its advance |
| Tomcat.WaypointStepsShape | src/drivers.py:673-682 | each waypoint advances once and never finishes, with or without a button |
| Tomcat.TomcatProgress | src/drivers.py:684-694 | below 100 before the end, no "DONE" when cancelled, 100 and "DONE" when completed |
| Tomcat.TomcatDriver.constructor | src/drivers.py:605-607 | a fresh driver with the capacity table as limits |
| Tomcat.TomcatDriver.EnterNumber | src/drivers.py:629-633 | `enter_number`'s presses |
| Tomcat.TomcatDriver.EnterLat | src/drivers.py:639-644 | the latitude presses |
| Tomcat.TomcatDriver.EnterLon | src/drivers.py:646-652 | the longitude presses |
| Tomcat.TomcatDriver.EnterElevation | src/drivers.py:654-661 | the elevation presses of `ElevationClamp` |
| Tomcat.TomcatDriver.EnterCoordsText | src/drivers.py:639-661 | the coordinates' presses once rendered |
| Tomcat.TomcatDriver.EnterCoords | src/drivers.py:635-661 | `enter_coords`' presses |
| Tomcat.TomcatDriver.EnterWaypointActs | src/drivers.py:676-682 | one waypoint's presses once its button is known |
| Tomcat.TomcatDriver.EnterWaypointUnit | src/drivers.py:673-682 | one iteration's run; a type without a button fails the run |
| Tomcat.TomcatDriver.EnterWaypointNext | src/drivers.py:673-682 | the loop extended by one waypoint |
| Tomcat.TomcatDriver.EnterWaypointList | src/drivers.py:673-682 | the waypoint loop's run equals its plan's run |
| Tomcat.TomcatDriver.EnterWaypoints | src/drivers.py:663-682 | TAC, then the waypoint loop |
| Tomcat.TomcatDriver.EnterBody | src/drivers.py:689-692 | the waypoints, then the closing advance |
| Tomcat.TomcatDriver.Prepare | src/drivers.py:685-688 | the validated waypoints and the progress parts |
| Tomcat.TomcatDriver.EnterAll | src/drivers.py:684-694 | `enter_all`: the run of the Tomcat plan from a reset counter |
| Warthog.CduKeys | src/drivers.py:709-713 | the CDU key names the plans use agree with `cdu`, except for the space |
| Warthog.Clears | src/drivers.py:715-717 | `clear_input(n)`: exactly n CLR presses |
| Warthog.StripLeading | src/drivers.py:720 | a suffix of the input that is empty or starts with a capital, with no capital before it |
| Warthog.KeepNameChars | src/drivers.py:721 | only capitals and digits, and every capital and digit of the input as often as it occurs there; `KeepNameCharsAppend` gives their order |
| Warthog.KeepNameCharsAppend | src/drivers.py:721 | the filter works piecewise over concatenation, so the kept characters stay in input order |
| Warthog.KeepNameCharsIdempotent | src/drivers.py:721 | a string of name characters is kept whole |
| Warthog.CleanShape | src/drivers.py:719-721 | a non-empty cleaned name starts with a capital and has only capitals and digits |
| Warthog.FallbackShape | src/drivers.py:722-723 | the fallback "WP<number>" starts with W and has only plain keys |
| Warthog.SourceShape | src/drivers.py:719-723 | the name's source starts with a capital and has only plain keys |
| Warthog.NameShape | src/drivers.py:719-732 | the typed name is non-empty, a prefix of its source, whole up to 12 characters, and cut to 11 when longer |
| Warthog.NamePrefix | src/drivers.py:719-732 | the name typed is its source when that has at most 12 characters, and the source's first 11 characters otherwise |
| Warthog.ElevationClamp | src/drivers.py:762-771 | a negative elevation is entered as 0; any other digit by digit; both between two double clears and LSK 5L |
| Warthog.LastCurrentSpec | src/drivers.py:777-795 | `ret_wp` is -1 exactly when no waypoint is current; otherwise the last current one |
| Warthog.LastCurrentNext | src/drivers.py:793-795 | one more waypoint becomes current when marked; otherwise nothing changes |
| Warthog.ReturnOfPosition | src/drivers.py:797-800 | the return selection: three CLR, the position's digits, LSK 3L |
| Warthog.WarthogProgress | src/drivers.py:802-812 | below 100 before the end, no "DONE" when cancelled, 100 and "DONE" when completed |
| Warthog.WarthogDriver.constructor | src/drivers.py:705-707 | a fresh driver whose WP limit is 99 |
| Warthog.WarthogDriver.ClearInput | src/drivers.py:715-717 | n CLR presses appended |
| Warthog.WarthogDriver.EnterWaypointName | src/drivers.py:719-732 | each character of the sanitised name pressed on the CDU |
| Warthog.WarthogDriver.EnterNumber | src/drivers.py:734-738 | `enter_number`'s presses |
| Warthog.WarthogDriver.EnterField | src/drivers.py:744-760 | a hemisphere key and a number between two clears and a line select key |
| Warthog.WarthogDriver.EnterCoordsText | src/drivers.py:740-760 | the coordinates' presses once rendered |
| Warthog.WarthogDriver.EnterCoords | src/drivers.py:740-760 | `enter_coords`' presses |
| Warthog.WarthogDriver.EnterElevation | src/drivers.py:762-771 | `enter_elevation`'s presses per `ElevationClamp` |
| Warthog.WarthogDriver.EnterElevationPart | src/drivers.py:787-791 | one waypoint's elevation part |
| Warthog.WarthogDriver.EnterWaypointActs | src/drivers.py:783-791 | one waypoint's presses |
| Warthog.WarthogDriver.EnterWaypointUnit | src/drivers.py:780-795 | one iteration's run: advance, then the waypoint |
| Warthog.WarthogDriver.EnterWaypointNext | src/drivers.py:779-795 | the loop extended by one waypoint |
| Warthog.WarthogDriver.EnterWaypointList | src/drivers.py:777-795 | the loop's run, plus the returned last current position per `LastCurrentSpec` |
| Warthog.WarthogDriver.EnterReturn | src/drivers.py:797-800 | the closing selection of the current waypoint |
| Warthog.WarthogDriver.EnterWaypoints | src/drivers.py:773-800 | `enter_waypoints`' run equals its plan's run |
| Warthog.WarthogDriver.EnterBody | src/drivers.py:807-810 | the waypoints, then the closing advance |
| Warthog.WarthogDriver.Prepare | src/drivers.py:803-806 | the validated waypoints and the progress parts |
| Warthog.WarthogDriver.EnterAll | src/drivers.py:802-812 | `enter_all`: the run of the Warthog plan from a reset counter |
| Viper.IcpKeys | src/drivers.py:840-853 | the ICP key names the plans use agree with `icp_btn` |
| Viper.RockerKeys | src/drivers.py:855-899 | the rocker movements the plans use agree with `icp_ded` and `icp_data` |
| Viper.RockersRecentre | src/drivers.py:855-899 | a rocker movement always ends with the switch centred: one position message for a known direction, none for another |
| Viper.ElevationClamp | src/drivers.py:907-916 | a negative elevation is entered as 0 and its magnitude capped at 1500; any other digit by digit; ENTR closes both |
| Viper.FirstCurrent | src/drivers.py:955-969 | -1, or a position below the number of steerpoints |
| Viper.FirstCurrentSpec | src/drivers.py:955-969 | -1 exactly when none is current; otherwise a current steerpoint with none current before it |
| Viper.FirstCurrentNext | src/drivers.py:966-969 | one more steerpoint becomes the first current when none was before |
| Viper.BackupsSelect | src/drivers.py:955-982 | the back-up count is between 1 and the number of steerpoints, and lands on the first current steerpoint, or on the last one when none is current |
| Viper.Backtrack | src/drivers.py:980-982 | `n` DED decrements, two messages each |
| Viper.BacktrackMoves | src/drivers.py:980-982 | the back-up holds exactly n DED-down movements, each followed by the centre |
| Viper.WaypointsShape | src/drivers.py:957-975 | the steerpoint loop advances once per steerpoint and never finishes |
| Viper.TacanOfYardstick | src/drivers.py:984-1012 | a yardstick "chan,xy,role" is entered with its band keys and channel, 63 higher for a wingman, without raising |
| Viper.WingmanChannel | src/drivers.py:999-1002 | a wingman's channel is typed as the lead's plus 63 |
| Viper.ModeRoundTrip | src/drivers.py:1020-1056 | entering and leaving a mode returns to NAV: the dogfight switch three times for DGFT, the ICP mode key in and out for the others, nothing for NAV |
| Viper.FormatKeys | src/drivers.py:939-947 | one OSB press, and two more only when the format differs from the default |
| Viper.NavPressSlots | src/drivers.py:1061-1068 | slot presses: never for OSB 14 slots; otherwise the slot's OSB when it holds FCR or HSD |
| Viper.NavKeysSelect | src/drivers.py:1061-1068 | NAV reselection presses OSB 13 then 12, left MFD then right, each only for FCR or HSD |
| Viper.FieldsStop | src/drivers.py:1081-1087 | once a field has raised, the later fields change nothing |
| Viper.NumUpdate | src/drivers.py:1096-1100 | `num_update` counts the set programs, and is at most their number |
| Viper.UnchangedProgram | src/drivers.py:1076-1093 | a program equal to its default, or unset, costs only the move to the next program |
| Viper.ElemCost | src/drivers.py:1070-1074 | a field equal to its default costs DATA down alone; any other its number keys plus four, ending with DATA down |
| Viper.ParseInts | src/drivers.py:1142 | every field as an integer, or `None` when one is not |
| Viper.DeclutterKeys | src/drivers.py:1151-1154 | key 1 twice above level 1, once at 1, never at 0 or below |
| Viper.StrEntry | src/drivers.py:1171-1184 | a string entry of the setup dictionary, `None` when absent |
| Viper.CmdsProgs | src/drivers.py:1189-1197 | the six CMDS programs in order, each with its default |
| Viper.SentinelDefaults | src/drivers.py:1189-1213 | without the optimise flags the MFD defaults are "0,0,0,0,0,0" and the CMDS defaults "-1,-1,-1,-1;-1,-1,-1,-1" |
| ViperDriving.ViperDriver.constructor | src/drivers.py:823-825 | a fresh driver with the WP limit 127 and the given dogfight cycle |
| ViperDriving.ViperDriver.IcpDed | src/drivers.py:855-872 | `icp_ded`'s rocker messages |
| ViperDriving.ViperDriver.IcpData | src/drivers.py:874-899 | `icp_data`'s rocker messages |
| ViperDriving.ViperDriver.DataDown | src/drivers.py:874-899 | DATA down and the centre |
| ViperDriving.ViperDriver.DataReturn | src/drivers.py:874-899 | DATA return and the centre |
| ViperDriving.ViperDriver.DataSequence | src/drivers.py:874-899 | DATA sequence and the centre |
| ViperDriving.ViperDriver.EnterNumber | src/drivers.py:901-905 | `enter_number`'s presses |
| ViperDriving.ViperDriver.EnterElevation | src/drivers.py:907-916 | `enter_elevation`'s presses per `ElevationClamp` |
| ViperDriving.ViperDriver.EnterElevationPart | src/drivers.py:964-965 | one steerpoint's elevation part |
| ViperDriving.ViperDriver.EnterField | src/drivers.py:922-937 | a field: hemisphere key, digits, ENTR, DATA down |
| ViperDriving.ViperDriver.EnterCoordsText | src/drivers.py:918-937 | the coordinates' presses once rendered |
| ViperDriving.ViperDriver.EnterCoords | src/drivers.py:918-937 | `enter_coords`' presses |
| ViperDriving.ViperDriver.EnterStptDown | src/drivers.py:958-960 | DATA down twice, to MAN/AUTO and then LAT |
| ViperDriving.ViperDriver.EnterStptNext | src/drivers.py:971-975 | DATA up four times, then DED up to the next steerpoint |
| ViperDriving.ViperDriver.EnterWaypointActs | src/drivers.py:962-975 | one steerpoint's presses after its advance |
| ViperDriving.ViperDriver.EnterWaypointUnit | src/drivers.py:957-975 | one iteration's run: down to LAT, advance, the steerpoint |
| ViperDriving.ViperDriver.EnterWaypointNext | src/drivers.py:957-975 | the loop extended by one steerpoint |
| ViperDriving.ViperDriver.EnterWaypointList | src/drivers.py:955-975 | the loop's run, and the returned back-up count per `BackupsSelect` |
| ViperDriving.ViperDriver.EnterBacktrack | src/drivers.py:980-982 | `n` DED decrements appended |
| ViperDriving.ViperDriver.EnterStptOpen | src/drivers.py:951-953 | RTN, then key 4 |
| ViperDriving.ViperDriver.EnterStptClose | src/drivers.py:980-982 | the back-up, then RTN |
| ViperDriving.ViperDriver.EnterWaypoints | src/drivers.py:949-982 | `enter_waypoints`' run equals its plan's run |
| ViperDriving.ViperDriver.EnterTacanOpen | src/drivers.py:988-991 | RTN, then key 1 (T-ILS) |
| ViperDriving.ViperDriver.EnterTacanClose | src/drivers.py:1004-1012 | SEQ twice, RTN, EHSI MODE twice, RTN |
| ViperDriving.ViperDriver.EnterChannel | src/drivers.py:999-1012 | the channel field and the keys after it |
| ViperDriving.ViperDriver.EnterBand | src/drivers.py:993-998 | key 0 and ENTR for band Y, then DATA down |
| ViperDriving.ViperDriver.EnterChannelField | src/drivers.py:998-1012 | the channel field of `enter_tacan` |
| ViperDriving.ViperDriver.EnterTacanFields | src/drivers.py:988-1012 | `enter_tacan` after its advance |
| ViperDriving.ViperDriver.EnterTacan | src/drivers.py:984-1012 | `enter_tacan`'s run equals its plan's run |
| ViperDriving.ViperDriver.EnterMfdFormat | src/drivers.py:939-947 | the presses of `FormatKeys` |
| ViperDriving.ViperDriver.EnterRightFormats | src/drivers.py:1042-1044 | the right MFD's OSBs 12, 13, 14 |
| ViperDriving.ViperDriver.EnterLeftFormats | src/drivers.py:1046-1048 | the left MFD's OSBs 12, 13, 14 |
| ViperDriving.ViperDriver.EnterModeIn | src/drivers.py:1020-1026 | into the master mode |
| ViperDriving.ViperDriver.EnterModeOut | src/drivers.py:1050-1056 | out of the master mode |
| ViperDriving.ViperDriver.EnterModeFormats | src/drivers.py:1039-1056 | the six slots, right MFD first, then out of the mode |
| ViperDriving.ViperDriver.EnterNavFormats | src/drivers.py:1061-1068 | the NAV reselection loop; a row of more than six slots raises |
| ViperDriving.ViperDriver.EnterNavSteps | src/drivers.py:1058-1068 | what NAV adds at the end of `enter_mfd` |
| ViperDriving.ViperDriver.EnterMfdSteps | src/drivers.py:1018-1068 | `enter_mfd` after its advance |
| ViperDriving.ViperDriver.EnterMfdRows | src/drivers.py:1039-1068 | after the mode is entered, the six formats right then left, the mode exit, and the NAV format selections, as `enter_mfd` presses them |
| ViperDriving.ViperDriver.EnterMfd | src/drivers.py:1014-1068 | `enter_mfd`'s run equals its plan's run |
| ViperDriving.ViperDriver.EnterMfdNext | src/drivers.py:1221-1223 | the MFD loop extended by one mode |
| ViperDriving.ViperDriver.EnterMfds | src/drivers.py:1221-1223 | the MFD loop over every master mode |
| ViperDriving.ViperDriver.EnterCmdsProgElem | src/drivers.py:1070-1074 | `enter_cmds_prog_elem`'s presses per `ElemCost` |
| ViperDriving.ViperDriver.EnterElemAt | src/drivers.py:1084-1087 | field k once the first k are done; a missing field raises |
| ViperDriving.ViperDriver.EnterProgFields | src/drivers.py:1081-1087 | the four fields against the default's |
| ViperDriving.ViperDriver.EnterChangedProg | src/drivers.py:1077-1087 | a changed program: advance, then its fields |
| ViperDriving.ViperDriver.EnterCmdsProg | src/drivers.py:1076-1093 | `enter_cmds_prog`'s run equals its plan's run |
| ViperDriving.ViperDriver.EnterProgram | src/drivers.py:1109-1118 | one program of the chaff or flare half |
| ViperDriving.ViperDriver.EnterProgramNext | src/drivers.py:1109-1118 | the program loop extended by one |
| ViperDriving.ViperDriver.EnterPrograms | src/drivers.py:1108-1118 | the program loop of one half |
| ViperDriving.ViperDriver.EnterCmdsType | src/drivers.py:1106-1120 | one half, then SEQ to the flare page after chaff |
| ViperDriving.ViperDriver.EnterCmdsTypeNext | src/drivers.py:1106-1120 | the half loop extended by one |
| ViperDriving.ViperDriver.EnterCmdsTypes | src/drivers.py:1106-1120 | chaff, then flare |
| ViperDriving.ViperDriver.CountUpdates | src/drivers.py:1096-1100 | returns `NumUpdate` of the programs |
| ViperDriving.ViperDriver.EnterCmdsOpen | src/drivers.py:1102-1104 | LIST, key 7, SEQ from BINGO to CHAFF |
| ViperDriving.ViperDriver.EnterCmds | src/drivers.py:1095-1122 | `enter_cmds`' run equals its plan's run |
| ViperDriving.ViperDriver.EnterBullsPage | src/drivers.py:1126-1131 | the bullseye page, and OWNSHIP mode for setup "1" |
| ViperDriving.ViperDriver.EnterBulls | src/drivers.py:1124-1134 | `enter_bulls`' run equals its plan's run |
| ViperDriving.ViperDriver.EnterBlank | src/drivers.py:1143-1150 | key 0 to disable a blanking field, else DATA down past it |
| ViperDriving.ViperDriver.EnterJhmcsRest | src/drivers.py:1151-1157 | the declutter level, the move on, the RWR field |
| ViperDriving.ViperDriver.EnterJhmcsTail | src/drivers.py:1151-1161 | the rest, the advance and RTN, or the exception on the fourth field |
| ViperDriving.ViperDriver.EnterJhmcsFields | src/drivers.py:1142-1161 | the JHMCS fields as integers |
| ViperDriving.ViperDriver.EnterJhmcs | src/drivers.py:1136-1161 | `enter_jhmcs`' run equals its plan's run |
| ViperDriving.ViperDriver.EnterSetupHead | src/drivers.py:1220-1223 | the TACAN yardstick, then the MFD loop |
| ViperDriving.ViperDriver.EnterSetupTail | src/drivers.py:1224-1226 | CMDS, bullseye, JHMCS |
| ViperDriving.ViperDriver.EnterSetup | src/drivers.py:1220-1226 | the whole avionics setup |
| ViperDriving.ViperDriver.EnterStptsAndSetup | src/drivers.py:1219-1226 | the steerpoints, then the setup |
| ViperDriving.ViperDriver.EnterBody | src/drivers.py:1218-1227 | the `try` block: steerpoints, setup, closing advance |
| ViperDriving.ViperDriver.CountSteps | src/drivers.py:1171-1184 | `num_steps`: one per set page, one per set program and one per present TACAN, bullseye and JHMCS setup |
| ViperDriving.ViperDriver.BuildCmdsProgs | src/drivers.py:1189-1197 | returns `CmdsProgs` of the dictionary |
| ViperDriving.ViperDriver.Prepare | src/drivers.py:1164-1216 | the validated steerpoints, the setup dictionary, the programs and the progress parts |
| ViperDriving.ViperDriver.EnterAll | src/drivers.py:1163-1229 | `enter_all`: the run of the F-16C plan from a reset counter |
| ViperBounds.TacanAdvances | src/drivers.py:984-986 | `enter_tacan` advances once with a yardstick, never without |
| ViperBounds.MfdAdvances | src/drivers.py:1014-1016 | `enter_mfd` advances once when the mode has a setup, never otherwise |
| ViperBounds.MfdModeAdvances | src/drivers.py:1221-1223 | a mode of the MFD loop advances at most once, only with a setup |
| ViperBounds.MfdsAdvances | src/drivers.py:1203-1223 | the MFD loop advances once per mode with a setup; the two air-to-air modes share one |
| ViperBounds.ProgAdvances | src/drivers.py:1076-1093 | a program advances once when it differs from its default, never otherwise |
| ViperBounds.ProgramAdvances | src/drivers.py:1109-1118 | a program of a half advances at most once, only when set |
| ViperBounds.ProgramsAdvances | src/drivers.py:1108-1118 | a half advances at most once per set program |
| ViperBounds.TypeAdvances | src/drivers.py:1106-1120 | a half and its closing SEQ advance as the half does |
| ViperBounds.CmdsAdvances | src/drivers.py:1095-1122 | `enter_cmds` advances at most twice per set program |
| ViperBounds.BullsAdvances | src/drivers.py:1124-1134 | `enter_bulls` advances once with a setup, never without |
| ViperBounds.JhmcsAdvances | src/drivers.py:1136-1161 | `enter_jhmcs` advances at most once, only with a setup |
| ViperBounds.SetupAdvances | src/drivers.py:1219-1226 | the whole setup advances at most once per setup found, with the shared air-to-air page and the program halves counted |
| ViperBounds.CmdsCount | src/drivers.py:1096-1100 | the set programs are among the program keys present |
| ViperBounds.NumUpdateCount | src/drivers.py:1096-1100 | set programs counted one for one against their keys |
| ViperBounds.AllKeysDistinct | src/db_objects.py:418-469 | the default, page and program keys are each listed once |
| ViperBounds.DictSize | src/drivers.py:1171-1184 | a dictionary holding the ten defaults is at least ten larger than its page setups and programs |
| ViperBounds.DefaultsPresent | src/db_objects.py:418-437 | `to_dict` writes the defaults whenever it writes anything |
| ViperBounds.SetupBound | src/drivers.py:1171-1184 | the setup advances at most once per step `num_steps` counts |
| ViperBounds.BodyWithinParts | src/drivers.py:1215 | the body advances fewer times than the parts the progress is split into, and never finishes |
| ViperBounds.ViperProgress | src/drivers.py:1163-1229 | the F-16C entry: below 100 before the end, no "DONE" when cancelled, 100 and "DONE" when completed |
| ViperBounds.DictProgress | src/drivers.py:1163-1229 | the progress promise holds for any setup dictionary that is empty or holds every default |
| ViperSetup.Lookup | src/avionics_setup_viper_gui.py:500-508 | the value next to a key in a table, or `None` for a missing key |
| ViperSetup.FormatTextsDistinct | src/avionics_setup_viper_gui.py:37-47 | no two formats share a text |
| ViperSetup.LookupUnique | src/avionics_setup_viper_gui.py:37-47 | a format text looks up its own OSB |
| ViperSetup.Hits | src/avionics_setup_viper_gui.py:517-521 | the texts mapped to an OSB, no more than the table holds; `HitsUnique` and `HitsNone` pin it down |
| ViperSetup.HitsUnique | src/avionics_setup_viper_gui.py:517-521 | an OSB held once has that entry's text as its only hit |
| ViperSetup.HitsNone | src/avionics_setup_viper_gui.py:517-521 | an OSB no entry holds has no hits |
| ViperSetup.FormatOsbsDistinct | src/avionics_setup_viper_gui.py:37-47 | no two formats share an OSB |
| ViperSetup.FormatRoundTrip | src/avionics_setup_viper_gui.py:37-47 | a format's OSB shows that format again |
| ViperSetup.OsbRoundTrip | src/avionics_setup_viper_gui.py:517-522 | a format's OSB is looked up back from its text; any other OSB shows "" |
| ViperSetup.SlotKeysDistinct | src/avionics_setup_viper_gui.py:67 | the six slots of a row have six different keys |
| ViperSetup.RowOsbs | src/avionics_setup_viper_gui.py:504-506 | the slots' OSBs, or `None` for a missing slot or a non-format text |
| ViperSetup.Strs | src/avionics_setup_viper_gui.py:507 | `str` of each item, in order |
| ViperSetup.GetMfdRow | src/avionics_setup_viper_gui.py:500-508 | a missing checkbox raises; off gives `None`; on gives a text exactly when all six slots hold formats, and it parses back to their OSBs |
| ViperSetup.JoinParses | src/avionics_setup_viper_gui.py:500-522 | integers joined with commas parse back to the list |
| ViperSetup.ShowRowAt | src/avionics_setup_viper_gui.py:517-522 | what each slot shows, and every other key left alone |
| ViperSetup.ShowRowReads | src/avionics_setup_viper_gui.py:500-522 | a row shown from six format OSBs reads back as those OSBs |
| ViperSetup.MfdRowRoundTrip | src/avionics_setup_viper_gui.py:500-522 | setting a row from a six-OSB text and reading it back gives the same text |
| ViperSetup.MfdRowNone | src/avionics_setup_viper_gui.py:510-513 | setting a row to `None` reads back as `None` |
| ViperSetup.UniquedSlots | src/avionics_setup_viper_gui.py:437-442 | another slot is cleared exactly when it held the changed slot's format |
| ViperSetup.EncodeTacan | src/avionics_setup_viper_gui.py:625-636 | raises exactly when on with a non-integer channel; `None` exactly when off; otherwise "chan,xy,L\|W" |
| ViperSetup.DecodeTacan | src/avionics_setup_viper_gui.py:601-616 | off, channel 1, band X and "Flight Lead" for `None`; fails exactly for fewer than three fields |
| ViperSetup.TacanUiRoundTrip | src/avionics_setup_viper_gui.py:601-636 | saving and loading turns the checkbox on and keeps the canonical channel, the band and the role |
| ViperSetup.TacanYardRoundTrip | src/avionics_setup_viper_gui.py:601-636 | loading a yardstick and saving it gives the same yardstick |
| ViperSetup.SavedTacanEntered | src/drivers.py:984-1012 | a saved yardstick is entered without raising, 63 higher for a wingman |
| ViperSetup.TacanSummary | src/avionics_setup_viper_gui.py:446-455 | empty when off; always shown for a lead; for a wingman, shown exactly when the channel is an integer |
| ViperSetup.SummaryShowsEnteredChannel | src/avionics_setup_viper_gui.py:446-455 | for a canonical channel, the summary shows the channel `enter_tacan` types |
| ViperSetup.AcceptedChannel | src/avionics_setup_viper_gui.py:793-803 | an accepted channel saves and is entered as 1-63 for a lead, 64-126 for a wingman |
| ViperSetup.DcLevel | src/avionics_setup_viper_gui.py:59-62 | the position (below 3) of a text in the level list, `None` for a text outside it |
| ViperSetup.EncodeJhmcs | src/avionics_setup_viper_gui.py:757-765 | raises exactly for an unknown level; `None` exactly for all on at level 0; otherwise "hud,pit,rwr,dc" |
| ViperSetup.JhmcsTextDefault | src/avionics_setup_viper_gui.py:757-765 | the text is "1,1,1,0" exactly when all three boxes are on at level 0 |
| ViperSetup.DecodeJhmcs | src/avionics_setup_viper_gui.py:726-741 | all on at level 0 for `None`; `JhmcsRoundTrip` gives the rest |
| ViperSetup.JhmcsRoundTrip | src/avionics_setup_viper_gui.py:726-765 | saving the JHMCS widgets and loading them back gives the same widgets |
| ViperSetup.JhmcsShown | src/avionics_setup_viper_gui.py:737-740 | one checkbox per stored field, in order, at most three; every other entry is kept |
| ViperSetup.ThreeFieldJhmcs | src/avionics_setup_viper_gui.py:736-741 | a setup cut to three fields such as "1,0,1" does not decode, yet sets all three checkboxes before raising |
| ViperSetup.ThreeFieldsParse | src/avionics_setup_viper_gui.py:736 | three checkbox integers joined with commas parse back to them |
| ViperSetup.SavedJhmcsEntered | src/drivers.py:1136-1161 | a saved JHMCS setup is entered without raising |
| ViperSetup.EncodeBulls | src/avionics_setup_viper_gui.py:752-755 | "1" exactly for "Ownship Bullseye", and that setup is entered as LIST 0 8 0 |
| ViperSetup.DecodeBulls | src/avionics_setup_viper_gui.py:727-730 | the first choice for `None`; otherwise a choice only when the text is an integer indexing one, and then that choice |
| ViperSetup.BullsRoundTrip | src/avionics_setup_viper_gui.py:727-755 | saving the bullseye choice and loading it back selects the same choice |
| ViperSetup.QuantityField | src/avionics_setup_viper_gui.py:526-533 | always a valid quantity: a valid input keeps its value; anything else becomes "0" |
| ViperSetup.QuantityIdempotent | src/avionics_setup_viper_gui.py:526-533 | serialising a serialised quantity changes nothing |
| ViperSetup.ViperSetupEditor.constructor | src/avionics_setup_viper_gui.py:89-95 | a fresh editor over the window, with nothing changed |
| ViperSetup.ViperSetupEditor.SetMfdRow | src/avionics_setup_viper_gui.py:510-522 | the checkbox shows whether a setup is given, and the slots show its formats or the defaults |
| ViperSetup.ViperSetupEditor.ShowOsbs | src/avionics_setup_viper_gui.py:518-522 | the slot loop: the row's first six formats shown in order, and a failure exactly when fewer than six are given |
| ViperSetup.ViperSetupEditor.UpdateUniqueMfdRow | src/avionics_setup_viper_gui.py:437-442 | every other slot holding the changed format is cleared; nothing else changes |
| ViperSetup.ViperSetupEditor.TacanChanEdited | src/avionics_setup_viper_gui.py:793-803 | a rejected channel loses its last character; an accepted one marks the editor dirty |
| ViperSetup.ViperSetupEditor.TacanWindow | src/avionics_setup_viper_gui.py:625-636 | the TACAN widgets as the window holds them |
| ViperSetup.ViperSetupEditor.CopyTacanToUi | src/avionics_setup_viper_gui.py:601-616 | the widgets show the decoded yardstick; a short one raises before any change |
| ViperSetup.ViperSetupEditor.CopyJhmcsToUi | src/avionics_setup_viper_gui.py:726-741 | the defaults for `None`; the decoded setup when it has four integers and a known level; otherwise the checkboxes its integer fields reach are set before the failure, and a non-integer field changes nothing |
| ViperSetup.ViperSetupEditor.ShowJhmcsFields | src/avionics_setup_viper_gui.py:736-741 | each checkbox shows its field in order until the fields run out; the declutter choice changes only with a fourth field naming a level |
| ViperSetup.ViperSetupEditor.CopyBullsToUi | src/avionics_setup_viper_gui.py:727-730 | the bullseye choice shows the first choice for `None`, else the choice the stored text indexes; any other text leaves it |
| ViperSetup.ViperSetupEditor.CopyMiscToUi | src/avionics_setup_viper_gui.py:726-741 | the bullseye choice, then the JHMCS widgets; the bullseye choice stays shown when the JHMCS part fails |
| Editor.DriverOf | src/wp_editor.py:22-27 | a name selects an airframe exactly when it is a key of the table |
| Editor.DriverKeys | src/wp_editor.py:22-27 | the table's keys in its order |
| Editor.DriverTable | src/wp_editor.py:22-27 | six keys, each selecting its own airframe, and every airframe selected by one key |
| Editor.WaypointEditor.Current | src/wp_editor.py:30-38 | the driver in use is one of the six |
| Editor.WaypointEditor.constructor | src/wp_editor.py:17-28 | a fresh driver per airframe with nothing sent, and the F-16C driver in use |
| Editor.WaypointEditor.SetDriver | src/wp_editor.py:30-34 | a table name selects its driver; any other raises and keeps the driver in use |
| Editor.WaypointEditor.EnterAll | src/wp_editor.py:36-38 | the driver in use runs its own `enter_all` plan on the profile and queues, at a progress step of 100 over that airframe's part count |
| Editor.WaypointEditor.EnterHornet | src/wp_editor.py:36-38 | the same, with the Hornet driver in use: its progress step is 100 over its part count, and its trace, queues and progress are those of running its plan |
| Editor.WaypointEditor.EnterHarrier | src/wp_editor.py:36-38 | the same, with the Harrier driver in use: its progress step is 100 over its part count, and its trace, queues and progress are those of running its plan |
| Editor.WaypointEditor.EnterMirage | src/wp_editor.py:36-38 | the same, with the Mirage driver in use: its progress step is 100 over its part count, and its trace, queues and progress are those of running its plan |
| Editor.WaypointEditor.EnterTomcat | src/wp_editor.py:36-38 | the same, with the Tomcat driver in use: its progress step is 100 over its part count, and its trace, queues and progress are those of running its plan |
| Editor.WaypointEditor.EnterWarthog | src/wp_editor.py:36-38 | the same, with the Warthog driver in use: its progress step is 100 over its part count, and its trace, queues and progress are those of running its plan |
| Editor.WaypointEditor.EnterViper | src/wp_editor.py:36-38 | the same, with the F-16C driver in use: its progress step is 100 over its part count, and its trace, queues and progress are those of running its plan |
| ButtonHook.WatchOf | src/dcs_button_hook.py:65-70 | only the "viper" entry is bound: address 17450, mask 64, shift 6; every other airframe raises |
| ButtonHook.Le16 | src/dcs_button_hook.py:107-111 | a little-endian 16-bit value, below 65536 |
| ButtonHook.Le32 | src/dcs_button_hook.py:112-113 | a little-endian 32-bit value, below 2^32 |
| ButtonHook.Le16RoundTrip | src/dcs_button_hook.py:107-111 | the two bytes of a 16-bit value decode back to it |
| ButtonHook.Le32RoundTrip | src/dcs_button_hook.py:112-113 | the four bytes of a 32-bit value decode back to it |
| ButtonHook.MarkerAt | src/dcs_button_hook.py:89-92 | the answer is the delimiter test; it raises exactly when fewer than four bytes remain and all of them are 0x55 |
| ButtonHook.FrameStart | src/dcs_button_hook.py:87-92 | the position just after the first delimiter from `i`, or the end when there is none |
| ButtonHook.BitAndPowerOfTwo | src/dcs_button_hook.py:116-117 | `a & 2^n` keeps bit n of a and nothing else |
| ButtonHook.ShrDiv | src/dcs_button_hook.py:117 | `a >> n` is the floor division of `a` by `2^n` |
| ButtonHook.ViperBit | src/dcs_button_hook.py:117 | the F-16C watch reads bit 6 of a value, and nothing else |
| ButtonHook.Records | src/dcs_button_hook.py:103-125 | the second loop: fires only at watched records, in increasing order; the presses found before an `IndexError` or `NameError` are kept beside the fault, with `btn_data` as it stood |
| ButtonHook.ScanBuffer | src/dcs_button_hook.py:87-125 | the two cursor loops compute what `FrameStart` and `Records` describe, including the fires already called before an exception ends the buffer |
| ButtonHook.SkipToMarker | src/dcs_button_hook.py:87-92 | the first loop stops just past the first delimiter, at the end without one, and fails where a delimiter check reads past the end |
| ButtonHook.ScanRecords | src/dcs_button_hook.py:104-125 | the second loop finds the presses and button value that `Records` describes; on a failure it returns the presses already fired together with the fault |
| ButtonHook.NoMarkerNoFires | src/dcs_button_hook.py:87-92 | a buffer without a delimiter, when its scan raises nothing, fires nothing and keeps `btn_data` |
| ButtonHook.FiresAfterFirstMarker | src/dcs_button_hook.py:87-92 | every fire is at least four bytes after the first delimiter |
| ButtonHook.FrameStartAt | src/dcs_button_hook.py:87-92 | from before the first delimiter, the first loop stops just past it without raising |
| ButtonHook.TruncatedRecordEnds | src/dcs_button_hook.py:122-125 | a record that does not fit ends the buffer without a fault: nothing fires from it on, and `btn_data` is kept |
| ButtonHook.MarkerSkipped | src/dcs_button_hook.py:104-105 | a delimiter among the records is stepped over, exactly its four bytes |
| ButtonHook.PressFires | src/dcs_button_hook.py:109-120 | a fitting watched record with a pressed value fires at its own position, ahead of the rest, and stays fired when the rest ends in a fault |
| ButtonHook.ViperFiresOnBit6 | src/dcs_button_hook.py:116-120 | the F-16C watch fires exactly when bit 6 of the value is set |
| ButtonHook.FireThenFault | src/dcs_button_hook.py:87-120 | a press at 4 followed by two bytes of a cut-off delimiter: the press fires, then the scan ends in `IndexError` |
| GuiUtil.GuiTextStrike | src/gui_util.py:68-74 | the loop builds `Strike(text)`; `StrikeShape` and `StrikeRoundTrip` say what it is |
| GuiUtil.StrikePrefixShape | src/gui_util.py:68-74 | a leading stroke, the characters at odd positions, a stroke between every two |
| GuiUtil.StrikeShape | src/gui_util.py:68-74 | a non-empty text doubles in length; "" gives a lone stroke |
| GuiUtil.Unstrike | src/gui_util.py:78-79 | no stroke left, and every other character kept as often as it occurs |
| GuiUtil.UnstrikeAppend | src/gui_util.py:78-79 | removing strokes distributes over concatenation |
| GuiUtil.UnstrikeFree | src/gui_util.py:78-79 | a text without strokes is kept |
| GuiUtil.UnstrikeIdempotent | src/gui_util.py:78-79 | removing strokes twice is removing them once |
| GuiUtil.UnstrikePrefix | src/gui_util.py:68-79 | striking a prefix and unstriking gives it back |
| GuiUtil.StrikeRoundTrip | src/gui_util.py:68-79 | unstriking a struck text gives the text back when it had no stroke of its own |
| GuiUtil.AirframeList | src/gui_util.py:47-48 | the six UI texts in the map's order |
| GuiUtil.Find | src/gui_util.py:52-56 | a key's value, or an error naming the missing key; found exactly when a key matches |
| GuiUtil.Hits | src/gui_util.py:60-64 | the keys mapped to a value, in table order; no more hits than entries |
| GuiUtil.UiTextToType | src/gui_util.py:52-56 | the type of a UI text of the map; a `KeyError` for any other |
| GuiUtil.AirframeMapInjective | src/gui_util.py:36-42 | no two entries share a UI text or a type |
| GuiUtil.HitsUnique | src/gui_util.py:60-64 | a value held once has that entry's key as its only hit |
| GuiUtil.HitsNone | src/gui_util.py:60-64 | a value no entry holds has no hits |
| GuiUtil.FindUnique | src/gui_util.py:52-56 | a key held once finds that entry's value |
| GuiUtil.AirframeRoundTrip | src/gui_util.py:36-64 | each type shows its own text, which converts back to it, and vice versa |
| GuiUtil.UnknownTypeShowsViper | src/gui_util.py:60-64 | a type outside the map shows as "F-16C Viper" |
| GuiUtil.TypeToUiTextInMap | src/gui_util.py:60-64 | every type gets some UI text of the map |
| GuiUtil.IsDcsForeground | src/gui_util.py:142-148 | true exactly when the title is "Digital Combat Simulator", "DCS.openbeta" or "DCS" |
| Prefs.HotkeyOfParts | src/prefs.py:323-335 | modifiers joined to a one-character key make a valid hotkey |
| Prefs.HotkeyParts | src/prefs.py:323-335 | conversely, a valid non-empty hotkey is modifiers joined to a one-character key |
| Prefs.TrailingSeparatorInvalid | src/prefs.py:323-335 | a hotkey ending in a separator is refused |
| Prefs.LongKeyInvalid | src/prefs.py:323-335 | several characters without a separator are refused |
| Prefs.ModifierNoPlus | src/prefs.py:323-335 | a modifier holds no "+" |
| Prefs.ModifierWords | src/prefs.py:323-335 | the five modifier words are modifiers |
| Prefs.DefaultHotkeysSpelled | src/prefs.py:353-359 | the default hotkeys, word by word |
| Prefs.DefaultHotkeyValid | src/prefs.py:353-359 | every default hotkey passes validation |
| Prefs.CallsignOfParts | src/prefs.py:339-343 | a name without digits, a flight number, a hyphen and a member number make a valid callsign |
| Prefs.CallsignHasHyphen | src/prefs.py:339-343 | a valid non-empty callsign starts with a non-digit and holds a hyphen |
| Prefs.DefaultCallsignValid | src/prefs.py:362 | the default "Colt1-1" is valid |
| Prefs.NormalizedPath | src/prefs.py:87-91 | no path stays none; a path ends in "\\" or "/", extending the input by at most a "\\" |
| Prefs.NormalizedPathIdempotent | src/prefs.py:87-91 | setting the path to what it holds changes nothing |
| Prefs.NormalizedPathKeeps | src/prefs.py:87-91 | a path ending in a separator is kept |
| Prefs.FlagString | src/prefs.py:235-239 | a boolean setter stores a string as is and any other value as "true" or "false" |
| Prefs.FlagBoolRoundTrip | src/prefs.py:231-253 | a boolean given to any setter reads back as itself |
| Prefs.FlagStringKept | src/prefs.py:231-253 | a stored string reads back as true exactly when it is "true" |
| Prefs.AutoUpdCheckDiffers | src/prefs.py:235-253 | the integer 2 turns the update check off but every other flag on |
| Prefs.FlagTestsAgree | src/prefs.py:235-253 | on True, False, 0, 1, 0.0 and 1.0 the two tests agree |
| Prefs.Preferences.constructor | src/prefs.py:37-50 | without a settings file, the `reset_prefs` defaults |
| Prefs.Preferences.ResetPrefs | src/prefs.py:347-369 | every setting back to its default, each accepted by its setter |
| Prefs.Preferences.ResetPaths | src/prefs.py:348-350 | the default paths, the DCS path with its separator |
| Prefs.Preferences.ResetHotkey | src/prefs.py:353-359 | one default hotkey, accepted |
| Prefs.Preferences.ResetHotkeys | src/prefs.py:353-359 | the seven default hotkeys in order |
| Prefs.Preferences.ResetNames | src/prefs.py:360-362 | the default airframe, setup and callsign, the callsign accepted |
| Prefs.Preferences.ResetFlags | src/prefs.py:363-368 | the boolean defaults, stored as strings |
| Prefs.Preferences.SetPathDcs | src/prefs.py:87-91 | the path is stored as `NormalizedPath` gives it |
| Prefs.Preferences.SetHotkey | src/prefs.py:133-137 | a valid hotkey is stored; an invalid one is refused with "Invalid hotkey" and nothing changes |
| Prefs.Preferences.SetAirframeDefault | src/prefs.py:203-207 | the airframe is stored, and it always has a UI text of the map, so the unknown-type check never fires |
| Prefs.Preferences.SetCallsignDefault | src/prefs.py:221-225 | a valid callsign is stored; an invalid one is refused with "Invalid callsign" and nothing changes |
| Prefs.Preferences.SetFlag | src/prefs.py:235-239 | the flag's entry becomes `FlagString` of the value; other flags are unchanged |
| Prefs.Preferences.FlagBool | src/prefs.py:231-233 | the `*_bool` getter: true exactly when the stored string is "true" |

## Findings

| source | as written | input that shows it | evidently intended | confidence | as-written member | corrected member |
|---|---|---|---|---|---|---|
| src/drivers.py:290-296 | `count_steps_enter_wypts` counts the waypoints and the sequence positions, but `enter_waypoints` (src/drivers.py:329-331) prepends position 0 to sequence 1 and advances for it too | a Hornet profile with one plain waypoint in sequence 1 and no MSNs: two steps are counted, so four parts and a step of 25. The body advances four times: once after the missions, then for the waypoint, the prepended position 0 and the waypoint's own position. So it publishes 100 before the closing advance | count one more step when sequence 1 is entered, so the run stays below 100 until the closing advance | not executed | Hornet.HornetSequenceOneReachesHundred | Hornet.HornetProgressIntended |

## Left out

- Sockets, sleeps and delays: a datagram is appended to the driver's `sent` trace, and `sendto` returns the UTF-8 byte count. The delays (`short_delay`, `medium_delay`, `delay_after`, `delay_release`) are not modelled.
- The keyboard library: a synthesised keystroke (`keyboard_key_with_delay`) is a trace event.
- `latlon_tostring` (src/drivers.py:36-81) and the `LatLon23` objects it reads: floating-point rounding and formatting are outside the model. The rendered strings are a `Renderer` parameter of each driver.
- Threads, the background-operation GUI and logging: the command and progress queues are sequences on objects, and `logger` calls are dropped.
- Text.ParseInt: does not accept the whitespace and underscores Python's `int()` allows. The source only parses the texts its own encoders or widgets produce.
- Text.Lower, Text.Upper, Warthog.KeepNameChars: ASCII only. There is no Unicode case folding.
- Prefs.Preferences.SetCallsignDefault, Prefs.IsCallsignValid, Prefs.CallsignShape, Prefs.NoDigits, Text.IsDigit: a digit is an ASCII `0`-`9`. Python's `\d` and `\D` in `is_callsign_valid` (src/prefs.py:340) also take other Unicode decimal digits, such as Arabic-Indic ones, so the model refuses some callsigns the source accepts, and the reverse.
- Runs.StepSize, Runs.Times, Runs.AdvanceRun, Runs.Progress, Drivers.Driver (its `progCur` and `progStep` fields): the progress step and counter are exact real numbers. The source computes them as floats (src/drivers.py:165, 407, 1215), so its rounding is not modelled. A float sum of the steps can land just below or above 100, where the model is exactly 100.
- Viper `print(cmds_progs)` (src/drivers.py:1198): console output, not modelled.
- The "OSB" to "OS" rewrite in `press_with_delay` is modelled as written. Among the keys the drivers press, it changes only the F/A-18C option-select keys `UFC_OSB1`, `UFC_OSB3` and `UFC_OSB4` (sent as `UFC_OS1 1\n` and so on); every other key goes out unchanged. Whether DCS-BIOS accepts the rewritten names is not part of this model.
- The F-16C CMDS type loop iterates over the indices 0 and 1 of `["CHAFF", "FLARE"]`.
- ViperSetup.ViperSetupEditor: the window's values and widget state are one map of keys to strings.
- ViperSetup.ViperSetupEditor.CopyJhmcsToUi: a declutter value outside the three choices is reported as a failure after the three checkboxes are set, and the choice is left as it was. What the GUI toolkit does with an out-of-range `set_to_index` is not part of this model.
- ViperSetup.ViperSetupEditor.CopyBullsToUi: the stored text "1" is read as index 1, as the toolkit reads an index given as text. A text that indexes no choice leaves the widget as it was; the toolkit's own handling of it is not part of this model.
- Editor.WaypointEditor.EnterAll: does not restate that the drivers stay `Valid()` afterwards. Only the delegation to the driver in use is stated.
- The button hook's thread loop, socket reads and foreground polling (src/dcs_button_hook.py:48-86) are not modelled. The watched airframe is a parameter, and the unbound `af_btn_*` names are not modelled.
- The delay setters (src/prefs.py:113-127): they store floats and are not modelled.
- `synchronize_prefs`, `persist_prefs`, `locate_dcswe_prefs`, `prefs_to_file` and the `ConfigParser` file: file I/O, not modelled.
- The plain setters `path_tesseract`, `path_mission`, `av_setup_default` and `last_profile_sel` only assign. Their fields are set in `ResetPaths` and `ResetNames`.
- Prefs.Preferences.SetHotkey, Prefs.Preferences.SetCallsignDefault: the exception is returned as a `Result` error instead of raised.
- `gui_backgrounded_operation`, `gui_select_from_list` and the rest of src/gui_util.py: GUI toolkit windows, not modelled.
- `reset_db` and `stop` of src/wp_editor.py: database and socket lifetime, not modelled.
- Profile save, load, delete and JSON import/export of src/db_objects.py: persistence through the ORM. The base-name lookup in `Waypoint.__post_init__` is also not modelled.
- The CMDS burst and salvo interval validators of the F-16C setup editor: they validate floating-point text.
- The other `update_gui_*` and `do_*` handlers of the F-16C setup editor are not modelled. They only enable, disable or refresh widgets.
