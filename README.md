# duneggd geometry-builder logic in Dafny

duneggd describes the DUNE far-detector and ProtoDUNE-VD detectors for the
gegede geometry library and inspects the resulting ROOT geometries with small
C++ macros. Most of each builder is calls into gegede (shapes, volumes,
placements); underneath those calls sits sequential logic that decides what is
built and where. This project models that logic and proves what it promises:

- **Wire planes** (`wire_clip.dfy`, `tpc_wires.dfy`, `fd_wires.dfy`): clipping
  a wire line to the readout rectangle, laying out pitched wires, splitting a
  CRU at y = 0, the 180-degree flip with channel renumbering, the collection
  (Z) wires of each quadrant, the quadrant placements of the TPCs, and the
  FD-VD wire builder with its per-plane "generated" flags.
- **Parameter store** (`param_store.dfy`): the FD-VD `Params` class, its
  sections merged into one global map, the derived parameters computed at most
  once, and lookup of a missing key as a failure.
- **Tree macros** (`geo_tree.dfy`, `volume_traversal.dfy`, `point_walk.dfy`,
  `volume_sampler.dfy`): the ROOT node tree as a datatype; the depth-first
  walk of `gl.C` with its first-match visibility and renaming rules and its
  per-name visit counts; the trailing-digits clean-up of `point_walk.C`; the
  node and mother searches, the mother chain, the bounding interval and the
  sampling counters of `volume_sampler.C`.
- **Beam-volume accounting** (`beam_volume.dfy`): the ordered classification
  of (name, volume) rows of `CalculateBeamVolume.py` into accumulators.
- **Placement rules** (`apa_cryostat.dfy`, `rubik.dfy`, `cathode_grid.dfy`,
  `pd_cathode.dfy`, `pmts.dfy`, `xarapuca.dfy`, `crt.dfy`,
  `fd_field_cage.dfy`, `pd_field_cage.dfy`, `fd_cryostat.dfy`, `ecal_mod.dfy`,
  `steel_support.dfy`): APA/TPC/CPA numbering with ignored ranges, symmetric
  beam positions, the Rubik cube of 26 blocks, the recursive 4 x 4 cathode
  grid, the PMT, CRT and X-ARAPUCA position tables, slim against thick field
  shapers, the alternating ECAL planes and the steel-support axes.

Shared modules hold the Python and C++ failure kinds (`wrappers.dfy`), string
helpers (`strings.dfy`), Python dictionaries of numbers (`dicts.dfy`) and the
records a builder hands to gegede (`placements.dfy`, `shapes.dfy`): a gegede
call is modelled as the record it receives, appended in call order. Lengths
are exact `real`s in cm. A raised Python exception or `sys.exit` becomes an
`Err` carrying the exception's kind and message. The square root and the
wire's direction vector are inputs instead of trigonometry. Builders that
update their own attributes are classes whose methods are proved against
specification functions of the old state. Pure helpers are functions with
lemmas.

## Model

| member | source | states |
|---|---|---|
| WireClip.LineClipVertical | python/duneggd/protodunevd/tpcs.py:16-17 | a wire direction with abs(nx) below 1e-4 gives the vertical segment [x0, 0, x0, rcw] |
| WireClip.LineClipHorizontal | python/duneggd/protodunevd/tpcs.py:18-19 | otherwise abs(ny) below 1e-4 gives the horizontal segment [0, y0, rcl, y0] |
| WireClip.LineClipGeneral | python/duneggd/protodunevd/tpcs.py:21-46 | in the general case the result is the first four values of the border crossings taken left, right, bottom, top: the early returns stop exactly at four |
| WireClip.LineClipLength | python/duneggd/protodunevd/tpcs.py:12-46 | the result always has 0, 2 or 4 values |
| WireClip.LineClipOnBorder | python/duneggd/protodunevd/tpcs.py:21-43 | in the general case every reported end point lies on the border of the [0, rcl] x [0, rcw] rectangle |
| WireClip.ClipOnLine | python/duneggd/protodunevd/tpcs.py:21-43 | in the general case every reported end point lies on the line through (x0, y0) with direction (nx, ny) |
| WireClip.Origin | python/duneggd/protodunevd/tpcs.py:143-147 | the starting point takes each offset from the far side along an axis where the pitch direction is negative, else as given |
| WireClip.WireOf | python/duneggd/protodunevd/tpcs.py:166-183 | a wire record keeps its channel, recentres the end points on the rectangle centre, stores their midpoint and the square root of their squared distance |
| WireClip.ClippedWire | python/duneggd/protodunevd/tpcs.py:155-183 | a channel whose line clips to four values yields a centred wire of that channel whose length is the end-point distance |
| WireClip.GenerateWires | python/duneggd/protodunevd/tpcs.py:150-191 | the channel loop returns exactly the reference list Generated of the clipped channels, in channel order |
| WireClip.OffsetStep | python/duneggd/protodunevd/tpcs.py:161-163 | the offset advances by one pitch for every channel, skipped or not |
| WireClip.GeneratedStep | python/duneggd/protodunevd/tpcs.py:153-189 | one more channel appends that channel's wire when its clip has four values, and nothing otherwise |
| WireClip.ClipsNumbered | python/duneggd/protodunevd/tpcs.py:153-183 | the outcome of channel k is the clip of channel k and carries k as its id |
| WireClip.GeneratedChannels | python/duneggd/protodunevd/tpcs.py:153-191 | at most nch wires are stored, each the clipped wire of its own channel, ids strictly increasing |
| WireClip.GeneratedComplete | python/duneggd/protodunevd/tpcs.py:153-191 | every channel below nch whose wire clips is among the stored wires |
| WireClip.ClippedWireOnBorder | python/duneggd/protodunevd/tpcs.py:166-175 | a stored wire's end points lie on the border of the rectangle centred on the origin and its centre is their midpoint |
| WireClip.GeneratedCentred | python/duneggd/protodunevd/tpcs.py:166-183 | every stored wire is centred and its length is the distance between its end points |
| TpcWires.GenerateCruWires | python/duneggd/protodunevd/tpcs.py:123-191 | one CRU plane's wires are the clipped channels from the direction-dependent starting corner, at most nch of them, each with a channel below nch and centred between its end points |
| TpcWires.FlipWires | python/duneggd/protodunevd/tpcs.py:104-121 | the flipped list has the same length; each wire keeps channel and length, has both end points negated and its centre at their midpoint |
| TpcWires.FlipNegatesCentre | python/duneggd/protodunevd/tpcs.py:113-121 | a centred wire's flipped centre is its centre negated |
| TpcWires.FlipKeepsLength | python/duneggd/protodunevd/tpcs.py:113-121 | when every stored length is the end-point distance, this still holds after the flip |
| TpcWires.FlipInvolutive | python/duneggd/protodunevd/tpcs.py:104-121 | flipping a list of centred wires twice returns the list |
| TpcWires.SideOf | python/duneggd/protodunevd/tpcs.py:74-83 | a wire is below y = 0 exactly when both end points have y < 0, above exactly when both have y > 0, and across otherwise |
| TpcWires.MakeWire | python/duneggd/protodunevd/tpcs.py:60-66 | make_wire keeps the channel, the given length and the end points and puts the centre at their midpoint |
| TpcWires.ShiftAll | python/duneggd/protodunevd/tpcs.py:95-100 | the shift moves each wire of a half by the fixed y offset, one for one |
| TpcWires.ShiftInPlace | python/duneggd/protodunevd/tpcs.py:96-100 | the in-place loop over one half leaves exactly the shifted list |
| TpcWires.SplitWires | python/duneggd/protodunevd/tpcs.py:49-102 | split_wires returns the reference split: ZeroDivisionError or the two shifted halves |
| TpcWires.CutWires | python/duneggd/protodunevd/tpcs.py:71-93 | the cutting loop succeeds exactly when every crossing wire can be cut, and then returns the reference lower and upper lists |
| TpcWires.CutStep | python/duneggd/protodunevd/tpcs.py:73-93 | one pass appends wire i's pieces so that the lists become those of the first i + 1 wires |
| TpcWires.SplitOne | python/duneggd/protodunevd/tpcs.py:77-93 | a wire below y = 0 goes only to the lower list, above only to the upper list, and a crossing wire is cut into one piece for each |
| TpcWires.ListsStep | python/duneggd/protodunevd/tpcs.py:73-93 | one more wire extends each list by at most its own piece, numbered by the list's current length |
| TpcWires.ListsNumbered | python/duneggd/protodunevd/tpcs.py:71-93 | the lower list holds one record per wire not above y = 0, the upper one per wire not below it, each numbered 0, 1, 2, ... |
| TpcWires.CountsAddUp | python/duneggd/protodunevd/tpcs.py:77-93 | below, above and crossing counts add up to the number of wires, so the two lists hold the wire count plus the crossing count |
| TpcWires.PiecesInTheirHalf | python/duneggd/protodunevd/tpcs.py:84-91 | the lower piece lies at y <= 0 and the upper at y >= 0, both centred |
| TpcWires.ListsInTheirHalf | python/duneggd/protodunevd/tpcs.py:73-93 | before the shift lower records lie at y <= 0 and upper records at y >= 0 |
| TpcWires.SplitFails | python/duneggd/protodunevd/tpcs.py:84 | split_wires fails with ZeroDivisionError exactly when the wire angle is 0 and some wire touches or crosses y = 0 |
| TpcWires.SplitHalves | python/duneggd/protodunevd/tpcs.py:49-102 | on success the two halves are numbered from 0, hold the wire count plus the crossing count, lie within a quarter width of their side after the shift and are centred |
| TpcWires.ListsCentred | python/duneggd/protodunevd/tpcs.py:71-93 | every record of both lists is centred |
| TpcWires.NoCrossingCount | python/duneggd/protodunevd/tpcs.py:77-83 | no wire crosses y = 0 exactly when the crossing count is zero |
| TpcWires.ZDelta | python/duneggd/protodunevd/tpcs.py:414-418 | zdelta is never negative; it is the PCB room left by the Z wires when that is not negative, and 0 otherwise |
| TpcWires.ZWires | python/duneggd/protodunevd/tpcs.py:414-445 | the Z-wire loop of one quadrant, with the guard corrected as in Findings, returns the reference list, failing with ValueError on the first wire outside the plane |
| TpcWires.ZGuardAsWrittenNeverFires | python/duneggd/protodunevd/tpcs.py:436-437 | the guard as written, an absolute value below zero, never holds |
| TpcWires.ZGuardCounterexample | python/duneggd/protodunevd/tpcs.py:414-437 | 12 wires of pitch 1 in a plane of length 10: the last wire at z = 6.5 lies outside the plane, which the intended check rejects and the written one lets through |
| TpcWires.ZWiresFit | python/duneggd/protodunevd/tpcs.py:414-445 | when nch pitches fit in the PCB length the loop succeeds with nch wires numbered i + quad * nch, one pitch apart, each inside the plane |
| TpcWires.ZInside | python/duneggd/protodunevd/tpcs.py:420-435 | when the wires fit, each wire's z lies within half the PCB length of the centre |
| TpcWires.ZFromFits | python/duneggd/protodunevd/tpcs.py:434-445 | from wire i on, when no remaining wire is outside the plane, the loop with the corrected guard returns the remaining wires in order |
| TpcWires.Quad | python/duneggd/protodunevd/tpcs.py:519-544 | the quadrant is 2 * (ii % 2) + jj % 2 |
| TpcWires.RowZStep | python/duneggd/protodunevd/tpcs.py:505-508 | posZ advances by one CRP length at every even row after the first and stays otherwise |
| TpcWires.ColYStep | python/duneggd/protodunevd/tpcs.py:513-516 | posY advances by one CRP width at every even column after the first and stays otherwise |
| TpcWires.PlaceTpcs | python/duneggd/protodunevd/tpcs.py:483-578 | place_tpcs appends exactly the reference placements GridPairs, row by row |
| TpcWires.PlaceTpcRow | python/duneggd/protodunevd/tpcs.py:511-578 | row ii appends the top and bottom TPC of each of its CRMs in column order and advances idx by nCRM_x |
| TpcWires.GridPairsLength | python/duneggd/protodunevd/tpcs.py:505-578 | place_tpcs makes two placements per CRM: 2 * nCRM_z * nCRM_x |
| TpcWires.TpcAt | python/duneggd/protodunevd/tpcs.py:504-578 | CRM (ii, jj), number idx = ii * nCRM_x + jj, has its top TPC at position 2 * idx and its bottom TPC right after |
| TpcWires.TpcPairShape | python/duneggd/protodunevd/tpcs.py:493-576 | a CRM's two placements share the quadrant's volume, y and z; they are one drift length, the cathode and a readout plane apart in x, and only the bottom one is rotated |
| FdWires.PlaneId | python/duneggd/dunefdvd/Wires.py:57-61 | the plane number is below 3 |
| FdWires.PlaneOf | python/duneggd/dunefdvd/Wires.py:57-61 | the plane of number i has number i |
| FdWires.PlaneIdRoundTrip | python/duneggd/dunefdvd/Wires.py:57-61 | plane numbers name the three planes one to one |
| FdWires.Quantity | python/duneggd/dunefdvd/Wires.py:64-67 | reading a quantity succeeds exactly when the key is present with a number, and yields that number |
| FdWires.ZStrips | python/duneggd/dunefdvd/Wires.py:73-75 | the first n collection strips are n records |
| FdWires.UVLayout | python/duneggd/dunefdvd/Wires.py:77-105 | an induction plane uses the given rectangle, the wire direction at theta and the pitch direction at theta - 90 degrees, starts at the corner the pitch direction points away from, with half a pitch of offset |
| FdWires.Segments | python/duneggd/dunefdvd/Wires.py:139-141 | each wire record is stored as one entry, in order |
| FdWires.GenerateDone | python/duneggd/dunefdvd/Wires.py:54-56 | once every plane is generated, generate_wires changes nothing and succeeds |
| FdWires.GenerateFrame | python/duneggd/dunefdvd/Wires.py:52-145 | generate_wires never clears a flag, never touches the volumes and leaves the other planes' lists as they were |
| FdWires.GenerateMarks | python/duneggd/dunefdvd/Wires.py:68-144 | a successful generate_wires leaves the plane flagged and its list in place |
| FdWires.ZStripsCentred | python/duneggd/dunefdvd/Wires.py:70-75 | collection strips are one pitch apart, symmetric about zero and each spans the active height |
| FdWires.UVChannels | python/duneggd/dunefdvd/Wires.py:107-142 | an induction plane's list holds the clipped wires of channels below its channel count, each once, in increasing channel order, centred |
| FdWires.WireInfoOf | python/duneggd/dunefdvd/Wires.py:148-153 | WireInfo yields the wire lists exactly when every plane is generated, and otherwise exits with status 1 |
| FdWires.PlaneVolumes | python/duneggd/dunefdvd/Wires.py:165-189 | the collection plane gives one volume, from its first strip (IndexError when there is none); an induction plane gives one volume per wire, named after plane and channel |
| FdWires.ConstructNoWires | python/duneggd/dunefdvd/Wires.py:159-160 | with "wires" false, construct leaves the builder unchanged |
| FdWires.PlanesKeepFlags | python/duneggd/dunefdvd/Wires.py:161-163 | the plane loop keeps every flag it finds set |
| FdWires.PlanesGenerate | python/duneggd/dunefdvd/Wires.py:161-163 | a plane loop that succeeds leaves every plane it visited generated |
| FdWires.ConstructEnablesWireInfo | python/duneggd/dunefdvd/Wires.py:155-190 | after a successful construct with "wires" true, WireInfo is available |
| FdWires.UVVolumeNamesDistinct | python/duneggd/dunefdvd/Wires.py:178-189 | the volumes of an induction plane have pairwise distinct names |
| FdWires.WiresBuilder.constructor | python/duneggd/dunefdvd/Wires.py:48-50 | configure starts with no wire lists and no plane generated |
| FdWires.WiresBuilder.BuildPlane | python/duneggd/dunefdvd/Wires.py:161-189 | one pass of the plane loop generates the first plane and adds its volumes, as the reference loop does |
| FdWires.WiresBuilder.GenerateWires | python/duneggd/dunefdvd/Wires.py:52-145 | generate_wires updates the builder exactly as the reference Generate does |
| FdWires.WiresBuilder.FillPlane | python/duneggd/dunefdvd/Wires.py:70-142 | the list a plane receives is the reference list of that plane |
| FdWires.WiresBuilder.FillCollection | python/duneggd/dunefdvd/Wires.py:70-75 | the collection strips are the reference strips |
| FdWires.WiresBuilder.FillInduction | python/duneggd/dunefdvd/Wires.py:76-142 | an induction plane's clipped wires are the reference list |
| FdWires.WiresBuilder.WireInfo | python/duneggd/dunefdvd/Wires.py:148-153 | the property returns what WireInfoOf gives on the builder's state |
| FdWires.WiresBuilder.AddPlaneVolumes | python/duneggd/dunefdvd/Wires.py:164-189 | the plane's volumes are appended on success, and nothing is added on failure |
| FdWires.WiresBuilder.Construct | python/duneggd/dunefdvd/Wires.py:155-190 | construct derives the parameters, then, when "wires" is true, generates U, V and Z and adds their volumes, as the reference ConstructAfter does |
| ParamStore.SetterLaterWins | python/duneggd/dunefdvd/utils/globals.py:93-157 | after a setter the global map gives the input's value for every key of the input, the section's value for every other key of the section and its old value for every key of neither; the other sections and the derived flag do not change |
| ParamStore.SetterEmptyInput | python/duneggd/dunefdvd/utils/globals.py:95-97 | an empty input leaves every section as it is and still copies the setter's section into the global map |
| ParamStore.SetterTwice | python/duneggd/dunefdvd/utils/globals.py:93-157 | every setter is idempotent |
| ParamStore.Lookup | python/duneggd/dunefdvd/utils/globals.py:330-334 | get yields the global map's value exactly when the key is present, and otherwise exits with status 1 |
| ParamStore.LookupNum | python/duneggd/dunefdvd/utils/globals.py:330-334 | get of a value used as a number yields that number, and exits with status 1 on a missing key |
| ParamStore.ConfigureState | python/duneggd/dunefdvd/Cryostat.py:26-32 | configure fails with ValueError exactly when a keyword is not already in the section |
| ParamStore.ConfigureKeepsKeys | python/duneggd/dunefdvd/Cryostat.py:26-32 | a successful configure keeps the section's keys, gives every keyword its new value in the section and in the global map, and leaves the other sections alone |
| ParamStore.ConfigureTwice | python/duneggd/dunefdvd/Cryostat.py:26-32 | configuring a section twice with the same keywords is configuring it once |
| ParamStore.TpcSection | python/duneggd/dunefdvd/utils/globals.py:166-215 | the TPC section keeps every key it had |
| ParamStore.DeriveTpc | python/duneggd/dunefdvd/utils/globals.py:166-215 | the derived TPC section keeps every key it had |
| ParamStore.DeriveCryostat | python/duneggd/dunefdvd/utils/globals.py:217-243 | the derived cryostat section keeps every key it had |
| ParamStore.DeriveEnclosure | python/duneggd/dunefdvd/utils/globals.py:246-283 | the derived enclosure section keeps every key it had |
| ParamStore.DeriveFieldCage | python/duneggd/dunefdvd/utils/globals.py:286-299 | the derived field-cage section keeps every key it had |
| ParamStore.DeriveCathode | python/duneggd/dunefdvd/utils/globals.py:302-304 | the derived cathode section keeps every key it had |
| ParamStore.DeriveArapuca | python/duneggd/dunefdvd/utils/globals.py:306-319 | the derived X-ARAPUCA section keeps every key it had |
| ParamStore.Derive | python/duneggd/dunefdvd/utils/globals.py:159-319 | the derivation leaves the world section alone and keeps every key of every other section |
| ParamStore.SetDerivedIdempotent | python/duneggd/dunefdvd/utils/globals.py:159-328 | after SetDerived succeeds the flag is set, and a second call changes nothing |
| ParamStore.SetDerivedOnce | python/duneggd/dunefdvd/utils/globals.py:162-163 | with the flag set, SetDerived neither fails nor changes anything |
| ParamStore.WorkspaceTable | python/duneggd/dunefdvd/utils/globals.py:173-204 | workspaces 1 to 7 each fix the CRM counts (y, z, x) of the table, and any other workspace fixes none |
| ParamStore.TpcSectionViews | python/duneggd/dunefdvd/utils/globals.py:166-167 | the TPC section gets the view count and the PCB length |
| ParamStore.TpcSectionCounts | python/duneggd/dunefdvd/utils/globals.py:173-204 | the TPC section gets the workspace's CRM counts, or keeps the configured ones |
| ParamStore.ReadsCounts | python/duneggd/dunefdvd/utils/globals.py:173-206 | SetDerived reads the workspace and, when the workspace fixes no counts, needs the configured nCRM_y and nCRM_z |
| ParamStore.DerivedCounts | python/duneggd/dunefdvd/utils/globals.py:173-206 | the derived TPC section holds the workspace's CRM counts or, when the workspace fixes none, the configured ones |
| ParamStore.ReadsViews | python/duneggd/dunefdvd/utils/globals.py:166-167 | the view count is the number of nChans entries and the PCB length the Z pitch times the collection channels |
| ParamStore.DerivedViews | python/duneggd/dunefdvd/utils/globals.py:166-167 | nViews and lengthPCBActive in the derived section are the number of nChans entries and the Z pitch times the collection channels |
| ParamStore.DerivedAir | python/duneggd/dunefdvd/utils/globals.py:247 | FracMassOfAir is the complement of FracMassOfSteel |
| ParamStore.DerivedBottomLists | python/duneggd/dunefdvd/utils/globals.py:307-319 | the bottom X-ARAPUCA lists have four entries, the last two the negations of the first two in reverse order |
| ParamStore.DerivedNeedsSeparation | python/duneggd/dunefdvd/utils/globals.py:295 | the field-cage derivation fails exactly when the shaper separation is zero or not a number |
| ParamStore.Params.constructor | python/duneggd/dunefdvd/utils/globals.py:4-87 | the store starts with the default sections and the flag clear |
| ParamStore.Params.SetSection | python/duneggd/dunefdvd/utils/globals.py:93-157 | a property setter changes the store exactly as the reference Setter does |
| ParamStore.Params.SetDerived | python/duneggd/dunefdvd/utils/globals.py:159-328 | on success the derived sections replace the old ones, are copied into the global map and the flag is set; on failure nothing changes |
| ParamStore.Params.Configure | python/duneggd/dunefdvd/Cryostat.py:26-32 | a builder's configure changes the store exactly as ConfigureState does, or fails and changes nothing |
| ParamStore.Params.Get | python/duneggd/dunefdvd/utils/globals.py:330-334 | get returns what Lookup gives on the store's state |
| VolumeTraversal.FirstMatch | python/duneggd/dunefdvd/gl.C:76-92 | the scan shared by shouldBeInvisible and getMappedName stops at the first rule whose pattern the name contains, or after the last rule; no earlier rule matches |
| VolumeTraversal.ShouldBeInvisibleFirst | python/duneggd/dunefdvd/gl.C:76-81 | when pattern k is the first the name contains, the answer is (true, its setAllInvisible flag) |
| VolumeTraversal.ShouldBeInvisibleNone | python/duneggd/dunefdvd/gl.C:82 | when no pattern matches, the answer is (false, false) |
| VolumeTraversal.MappedNameFirst | python/duneggd/dunefdvd/gl.C:87-90 | when mapping k is the first that matches, the mapped name is its replacement |
| VolumeTraversal.MappedNameNone | python/duneggd/dunefdvd/gl.C:92 | when no mapping matches, the name is kept |
| VolumeTraversal.Sightings | python/duneggd/dunefdvd/gl.C:96-152 | the walk's first call is on the node itself, with its depth and mother |
| VolumeTraversal.WalkIsFold | python/duneggd/dunefdvd/gl.C:96-152 | the walk is the visit step applied to its calls in order: nothing a visit does stops the loop over the daughters |
| VolumeTraversal.SightingsArePreorder | python/duneggd/dunefdvd/gl.C:147-151 | the nodes the walk visits are the preorder of the tree |
| VolumeTraversal.DaughtersVisited | python/duneggd/dunefdvd/gl.C:147-151 | every daughter is visited at depth + 1 with this node's volume as mother, after the node itself |
| VolumeTraversal.FoldCounts | python/duneggd/dunefdvd/gl.C:110-117 | over any run of visits, each mapped name's count grows by its sightings within the print depth, a name gets an entry exactly when it had one or is sighted, and an existing entry keeps its depth, parent and material |
| VolumeTraversal.FoldFirstSighting | python/duneggd/dunefdvd/gl.C:114-116 | a new name's entry takes the depth, parent and material of its first sighting, and its count is the number of its sightings |
| VolumeTraversal.FoldKeepsWellFormed | python/duneggd/dunefdvd/gl.C:110-117 | every entry stays keyed by its own name, at a depth within the print depth, with a positive count |
| VolumeTraversal.FoldLatches | python/duneggd/dunefdvd/gl.C:119-139 | the special node and the added node are the first visited nodes whose names contain the special and the target name |
| VolumeTraversal.FoldHides | python/duneggd/dunefdvd/gl.C:126-132 | a visited node is hidden exactly when an invisibility pattern matches it, and fully hidden exactly when its first matching pattern carries the flag |
| VolumeTraversal.WalkLatches | python/duneggd/dunefdvd/gl.C:96-152 | after the walk the special and added nodes are the first nodes of the preorder whose names contain the special and the target name, and a latch once set never changes |
| VolumeTraversal.WalkHides | python/duneggd/dunefdvd/gl.C:125-132 | SetInvisible is called on exactly the tree's nodes that match a pattern, SetAllInvisible on those whose first matching pattern carries the flag |
| VolumeTraversal.WalkCounts | python/duneggd/dunefdvd/gl.C:96-152 | the counts after a walk are those before plus the sightings of each mapped name within the print depth |
| VolumeTraversal.StrLessTotal | python/duneggd/dunefdvd/gl.C:43 | TString's order is total: of two different names one is less |
| VolumeTraversal.StrLessTransitive | python/duneggd/dunefdvd/gl.C:43 | TString's order is transitive |
| VolumeTraversal.StrLessIrreflexive | python/duneggd/dunefdvd/gl.C:43 | no name is less than itself |
| VolumeTraversal.KeyOrderUnique | python/duneggd/dunefdvd/gl.C:43 | two ascending lists of the same keys are equal, so the map's visiting order is determined by its keys |
| VolumeTraversal.LeastKey | python/duneggd/dunefdvd/gl.C:43 | a non-empty set of names has a least one |
| VolumeTraversal.KeysInOrder | python/duneggd/dunefdvd/gl.C:43-58 | the keys of gVolumeInfoMap come out strictly ascending, each key exactly once and nothing else |
| VolumeTraversal.KeyCount | python/duneggd/dunefdvd/gl.C:43 | the key order is as long as the map |
| VolumeTraversal.Entries | python/duneggd/dunefdvd/gl.C:58 | the map's entries visited in key order: one per key, entry k being the value of the k-th key, every value among them |
| VolumeTraversal.AtDepth | python/duneggd/dunefdvd/gl.C:59 | the entries of one depth all have that depth |
| VolumeTraversal.AtDepthEmpty | python/duneggd/dunefdvd/gl.C:59 | a depth has no entries exactly when no entry has that depth |
| VolumeTraversal.PushBackSpec | python/duneggd/dunefdvd/gl.C:59 | pushing keeps the depths ascending and every list non-empty, and adds the entry at the end of its own depth's list only |
| VolumeTraversal.VolumeSummary | python/duneggd/dunefdvd/gl.C:55-73 | the entries are visited in the map's key order; the groups come by increasing depth, each non-empty and holding exactly that depth's entries in key order, and every entry's depth has a group |
| VolumeTraversal.GroupByDepth | python/duneggd/dunefdvd/gl.C:58-60 | the grouping loop leaves for every depth exactly the entries of that depth, in order |
| VolumeTraversal.SummaryComplete | python/duneggd/dunefdvd/gl.C:62-72 | for entries in key order, each finished group is its depth's entries, and every entry of the map has its depth's group |
| VolumeTraversal.Display.constructor | python/duneggd/dunefdvd/gl.C:10-52 | the globals start with no volume added, printing on, print level 6, no patterns, no mappings, an empty map and no special node |
| VolumeTraversal.Display.TraverseNode | python/duneggd/dunefdvd/gl.C:96-97 | traverseNode on a possibly null node does nothing for null and otherwise walks it, leaving patterns and mappings alone |
| VolumeTraversal.Display.VisitNode | python/duneggd/dunefdvd/gl.C:98-139 | the part before the daughter loop changes the globals exactly as one visit step |
| VolumeTraversal.Display.MarkSpecial | python/duneggd/dunefdvd/gl.C:119-123 | the first node whose name contains the special name is remembered |
| VolumeTraversal.Display.AddTarget | python/duneggd/dunefdvd/gl.C:134-139 | the first node whose name contains the target name is handed to the display |
| VolumeTraversal.Display.RecordVolume | python/duneggd/dunefdvd/gl.C:110-117 | the volume is recorded under its mapped name as the reference Record does |
| VolumeTraversal.Display.Hide | python/duneggd/dunefdvd/gl.C:126-132 | the node is hidden when a pattern matches it, and fully hidden when that pattern carries the flag |
| VolumeTraversal.Display.WalkNode | python/duneggd/dunefdvd/gl.C:96-152 | traverseNode changes the globals exactly as the reference Walk does |
| VolumeTraversal.Display.Gl | python/duneggd/dunefdvd/gl.C:154-210 | gl sets the SteelShell pattern, resets the flags and the map, and walks the tree from the top node looking for volCryostat and volTPC |
| PointWalk.LastIndexOf | python/duneggd/Develop-Area/point_walk.C:145-146 | find_last_of gives no position exactly when the character is absent, and otherwise a position holding it with no later occurrence |
| PointWalk.RemoveTrailingNums | python/duneggd/Develop-Area/point_walk.C:143-155 | the result is always a prefix of the name |
| PointWalk.StripTrailingNums | python/duneggd/Develop-Area/point_walk.C:143-155 | the digit-checking loop returns exactly the reference RemoveTrailingNums |
| PointWalk.NoUnderscoreKept | python/duneggd/Develop-Area/point_walk.C:145-146 | a name without '_' is kept |
| PointWalk.NonDigitAfterLastUnderscoreKept | python/duneggd/Develop-Area/point_walk.C:148-152 | a non-digit anywhere after the last '_' keeps the whole name |
| PointWalk.DigitSuffixRemoved | python/duneggd/Develop-Area/point_walk.C:148-153 | a name followed by '_' and only digits, possibly none, loses exactly that suffix |
| PointWalk.RemovedSuffixIsDigits | python/duneggd/Develop-Area/point_walk.C:143-155 | conversely, the result is the name itself or the name with a '_'-and-digits suffix removed |
| VolumeSampler.FindNodeIsFirstInPreorder | python/duneggd/larfd/volume_sampler.C:23-45 | findNode returns the first node of the preorder whose node or volume name is the wanted one, and fails exactly when no node of the subtree has it |
| VolumeSampler.FindFromIsFirstInPreorder | python/duneggd/larfd/volume_sampler.C:35-44 | the daughter loop from daughter i returns the first match of the preorder of the remaining daughters |
| VolumeSampler.DirectDaughterAsWritten | python/duneggd/larfd/volume_sampler.C:59-66 | as written, when a daughter matches, findMotherNode reports this node as the mother, whatever the searches under earlier daughters did |
| VolumeSampler.LoopReachesDaughter | python/duneggd/larfd/volume_sampler.C:59-69 | as written, the loop reports this node as the mother once a later daughter matches |
| VolumeSampler.FindMotherAsWrittenMissesEarlierHit | python/duneggd/larfd/volume_sampler.C:58-71 | as written, in a world with daughters A and B where A holds volX, the result is false because the search under the last daughter B overwrites the hit under A, while the corrected search finds A |
| VolumeSampler.FindMotherCorrect | python/duneggd/larfd/volume_sampler.C:47-72 | the corrected search finds a mother exactly when some node strictly below matches, and returns a node of the subtree that has a matching daughter |
| VolumeSampler.MotherFromCorrect | python/duneggd/larfd/volume_sampler.C:59-69 | from daughter i on, the corrected loop succeeds exactly when findNode does on the same daughters, returning a node with a matching daughter |
| VolumeSampler.Chain | python/duneggd/larfd/volume_sampler.C:94-109 | the climb, with the corrected mother search of Findings, collects at most its fuel of mothers and throws only the missing-mother error |
| VolumeSampler.ChainLinks | python/duneggd/larfd/volume_sampler.C:99-109 | each collected mother lies in the world tree and has a daughter named like the node before it, and a chain shorter than the fuel ends at the world |
| VolumeSampler.ClimbToWorld | python/duneggd/larfd/volume_sampler.C:94-109 | the climbing loop, with the corrected mother search, returns the reference chain of at most nmax = 20 mothers, or throws when a mother is missing |
| VolumeSampler.Locate | python/duneggd/larfd/volume_sampler.C:85-109 | volume_sampler, with the corrected mother search, throws exactly when the volume is absent or a mother is missing, and otherwise returns the matching node found first and its chain of mothers |
| VolumeSampler.AxisBoundsAsWrittenKeepsLast | python/duneggd/larfd/volume_sampler.C:145-148 | as written, the maximum is simply the last corner's coordinate |
| VolumeSampler.AxisBoundsAsWrittenCounterexample | python/duneggd/larfd/volume_sampler.C:126-148 | as written, corners at 1 and 0 give the interval [0, 0]; the running maximum gives [0, 1] |
| VolumeSampler.AxisBounds | python/duneggd/larfd/volume_sampler.C:126-148 | with the maximum corrected, the interval contains every corner, widens the sentinels, and each bound is a sentinel or a corner |
| VolumeSampler.BoundingInterval | python/duneggd/larfd/volume_sampler.C:126-148 | the corner loop from the sentinels 1e30 and -1e30 returns the corrected interval |
| VolumeSampler.Hits | python/duneggd/larfd/volume_sampler.C:180-196 | no more hits than tries |
| VolumeSampler.Sample | python/duneggd/larfd/volume_sampler.C:172-201 | the sampling loop counts the hits of its tries, stops at npoint hits or nmax_tries tries, and the try before the last had fewer than npoint hits |
| VolumeSampler.SpecificVolume | python/duneggd/larfd/volume_sampler.C:202-207 | no hit at all ends the macro with code 1; otherwise the sampled volume is a positive fraction of the box volume |
| BeamVolume.Classify | python/duneggd/larfd/CalculateBeamVolume.py:31-50 | a row's kind is decided by the first name test of the if/elif chain that succeeds, in the script's order |
| BeamVolume.BeamInLongerName | python/duneggd/larfd/CalculateBeamVolume.py:31-40 | a name containing "BeamFloor" or "BeamSmall" contains "Beam", so those rows are taken by the earlier branches and never reach the plain "Beam" branch |
| BeamVolume.Accumulate | python/duneggd/larfd/CalculateBeamVolume.py:11-50 | the loop over the rows leaves exactly the reference tally |
| BeamVolume.TallyBeams | python/duneggd/larfd/CalculateBeamVolume.py:31-42 | each beam count is the number of rows of its kind (hole rows are not counted), each beam volume the sum of its rows, with floor holes subtracted from the floor beams |
| BeamVolume.LastOfKind | python/duneggd/larfd/CalculateBeamVolume.py:43-50 | the position of the last row of a kind, or -1 when none has it |
| BeamVolume.TallyLayers | python/duneggd/larfd/CalculateBeamVolume.py:43-50 | a layer value is the volume of the last row of that kind, or 0 when no row has it |
| BeamVolume.IgnoredRow | python/duneggd/larfd/CalculateBeamVolume.py:30-50 | a row that matches no test changes nothing |
| BeamVolume.TotalVolumeOfRows | python/duneggd/larfd/CalculateBeamVolume.py:75 | the total is the volume of every beam row minus the floor holes |
| BeamVolume.BeamCountsBounded | python/duneggd/larfd/CalculateBeamVolume.py:36-42 | the three beam counts together never exceed the number of rows |
| ApaCryostat.ConfigureCheck | python/duneggd/Develop-Area/Cryostat.py:68-70 | a missing nAPAs raises ValueError; a list without a second entry raises IndexError; more than two rows of APAs fail the assertion; otherwise nAPAs is kept |
| ApaCryostat.Counts | python/duneggd/Develop-Area/Cryostat.py:219-222 | construct reads the three module counts (x, y, z) from nAPAs, failing when it has fewer than three entries |
| ApaCryostat.OuterDim | python/duneggd/Develop-Area/Cryostat.py:152-158 | every outer dimension is the inner one plus twice the total cryostat layer |
| ApaCryostat.BeamInnerDim | python/duneggd/Develop-Area/Cryostat.py:837-839 | the beam box is the inner size plus the insulation and the steel skin on both sides |
| ApaCryostat.IgnoredIn | python/duneggd/Develop-Area/Cryostat.py:669-673 | the range loop answers true exactly when some ignored range holds the APA number |
| ApaCryostat.IsIgnoredAPAs | python/duneggd/Develop-Area/Cryostat.py:669-673 | iterating the default None raises TypeError; otherwise the answer is whether some range holds the number |
| ApaCryostat.PlaceModules | python/duneggd/Develop-Area/Cryostat.py:219-349 | the nested z, y, x loops leave exactly the reference state Modules |
| ApaCryostat.ModuleStep | python/duneggd/Develop-Area/Cryostat.py:224-349 | the innermost loop body for module (x, y, z) is the reference step ApaStep |
| ApaCryostat.AddCpa | python/duneggd/Develop-Area/Cryostat.py:341-343 | a cathode side places the CPA when its position is a new key, records the key and advances CPANum |
| ApaCryostat.ApaStepAdvances | python/duneggd/Develop-Area/Cryostat.py:224-329 | every pass, ignored or not, uses up one APA number and only appends placements |
| ApaCryostat.ModulesUseEveryApaNumber | python/duneggd/Develop-Area/Cryostat.py:219-329 | ignored APAs still take a number: after the loops APANum is nAPAs[0] * nAPAs[1] * nAPAs[2] |
| ApaCryostat.TpcNumbering | python/duneggd/Develop-Area/Cryostat.py:219-329 | the TPCs placed are, in order, TPC-2a and TPC-2a+1 for every APA number a below the number of module slots that no ignored range holds |
| ApaCryostat.ModuleNames | python/duneggd/Develop-Area/Cryostat.py:260-327 | a module places TPC-2a and TPC-2a+1 and no cathode |
| ApaCryostat.ApaStepTpcs | python/duneggd/Develop-Area/Cryostat.py:224-329 | one pass adds the two TPC names of its APA number, or none for an ignored APA |
| ApaCryostat.ReadoutOrientation | python/duneggd/Develop-Area/Cryostat.py:268-287 | only the top row keeps its first TPC unrotated and its second turned about y; lower rows turn both about x; the frame is turned like the first TPC |
| ApaCryostat.SharedCathode | python/duneggd/Develop-Area/Cryostat.py:338-349 | the second cathode side of module x is the first cathode side of module x + 1 |
| ApaCryostat.RowCathodesDistinct | python/duneggd/Develop-Area/Cryostat.py:221-349 | within a row, a cathode position is placed at most once and never when already a key of cpalist |
| ApaCryostat.CpaNumbering | python/duneggd/Develop-Area/Cryostat.py:650-666 | CPANum advances for every cathode side, placed or not; a new position places CPA-n with the value n it had, and a known one places nothing |
| ApaCryostat.AlongSymmetric | python/duneggd/Develop-Area/Cryostat.py:779-801 | beam n-1-i sits opposite beam i |
| ApaCryostat.AlongSpacing | python/duneggd/Develop-Area/Cryostat.py:779-801 | neighbouring beams are one separation apart |
| ApaCryostat.GetPosBeam | python/duneggd/Develop-Area/Cryostat.py:772-806 | the first of x, y, z that is given decides the face, the other in-face coordinate is zero and the beam's coordinate along the face is its spacing position; nothing is returned when no index is given |
| ApaCryostat.OppositeMirrors | python/duneggd/Develop-Area/Cryostat.py:782-806 | opposite negates exactly the coordinate across the chosen face |
| ApaCryostat.BeamAcrossFace | python/duneggd/Develop-Area/Cryostat.py:778-806 | across its face the beam is at plus or minus the mean of the outer and beam half sizes, plus unless opposite |
| ApaCryostat.BeamSitsInWarmLayer | python/duneggd/Develop-Area/Cryostat.py:772-806 | with the outer dimensions of lines 152-158 and the inner beam dimensions of lines 837-839, each beam's centre is half a beam height inside the outer wall and half a beam height outside the steel skin |
| ApaCryostat.BeamShapeVolume | python/duneggd/Develop-Area/Cryostat.py:676-706 | the volume written for a beam is the surrounding box less the two cut-out boxes beside the web |
| ApaCryostat.BeamRowsClassified | python/duneggd/Develop-Area/Cryostat.py:709-769 | every beam row the builder writes is counted by the reading script as its own kind: main, floor, floor hole or small beam |
| ApaCryostat.DssRowsIgnored | python/duneggd/Develop-Area/Cryostat.py:625-633 | the support-structure beam rows match no test of the reading script, so their volume is not counted |
| ApaCryostat.OnionNamesClassified | python/duneggd/Develop-Area/Cryostat.py:571-574 | each shell row goes to the accumulator of its own layer |
| ApaCryostat.OnionTally | python/duneggd/Develop-Area/Cryostat.py:551-574 | read back by the script, the shell rows leave the beam totals at zero and the four shells add up to the box under the steel skin less the argon box |
| Rubik.CoordIsProduct | python/duneggd/gegede-example/ggdex/__init__.py:91 | a block's coordinate along an axis is its grid index times the step |
| Rubik.RankOfNth | python/duneggd/gegede-example/ggdex/__init__.py:81-83 | the n-th cell the loops visit lies in the 3x3x3 grid and has rank n |
| Rubik.NthOfRank | python/duneggd/gegede-example/ggdex/__init__.py:81-83 | rank and visit order are inverse: the loops visit each cell of the grid exactly once |
| Rubik.VisitsColumnStep | python/duneggd/gegede-example/ggdex/__init__.py:83-84 | column (ii, jj) visits its cells in the order of kk |
| Rubik.ColumnStep | python/duneggd/gegede-example/ggdex/__init__.py:83-93 | one pass of the kk loop appends the placement of cell (ii, jj, kk), if any |
| Rubik.SliceStep | python/duneggd/gegede-example/ggdex/__init__.py:82-93 | one pass of the jj loop appends the whole column (ii, jj) |
| Rubik.SlicesStep | python/duneggd/gegede-example/ggdex/__init__.py:81-93 | one pass of the ii loop appends the whole slice ii |
| Rubik.CentreCountOfVisits | python/duneggd/gegede-example/ggdex/__init__.py:85-86 | the centre is the 14th cell visited, and it is the only one skipped |
| Rubik.BlockVisited | python/duneggd/gegede-example/ggdex/__init__.py:84-93 | every outer cell visited contributes its block |
| Rubik.BlocksFromVisited | python/duneggd/gegede-example/ggdex/__init__.py:84-93 | each placement is the block of an outer cell that was visited |
| Rubik.BlocksLength | python/duneggd/gegede-example/ggdex/__init__.py:84-93 | one placement per outer cell visited |
| Rubik.CubeCoverage | python/duneggd/gegede-example/ggdex/__init__.py:81-97 | the cube holds exactly 26 placements, one for each cell of the grid but its centre, and nothing else |
| Rubik.ParseCoordOf | python/duneggd/gegede-example/ggdex/__init__.py:90 | a coordinate printed with %d can be read back |
| Rubik.TripNameRoundTrip | python/duneggd/gegede-example/ggdex/__init__.py:90 | the '%d%d%d' name of a cell reads back as that cell, so it is one to one on the grid |
| Rubik.NamesDistinct | python/duneggd/gegede-example/ggdex/__init__.py:90-92 | different cells get differently named placements |
| Rubik.FirstVolumes | python/duneggd/gegede-example/ggdex/__init__.py:58-61 | the first volume of each sub-builder in order; a sub-builder without volumes raises IndexError |
| Rubik.RubikBuilder.constructor | python/duneggd/gegede-example/ggdex/__init__.py:47-49 | configure stores the material and the gap, and the builder starts with no volumes |
| Rubik.RubikBuilder.Construct | python/duneggd/gegede-example/ggdex/__init__.py:51-98 | construct returns the reference cube and adds it to the builder's volumes only when it succeeds |
| Rubik.Build | python/duneggd/gegede-example/ggdex/__init__.py:51-93 | the body of construct gives the reference cube: the sub-builders' first volumes, three of them, the stored block shape's half size, the half size and the 26 placements |
| Rubik.Fill | python/duneggd/gegede-example/ggdex/__init__.py:65-93 | from the reversal on, the blocks are placed as the reference Assemble does |
| Rubik.ReadBlocks | python/duneggd/gegede-example/ggdex/__init__.py:58-61 | the loop over the sub-builders returns the reference FirstVolumes |
| Rubik.PlaceBlocks | python/duneggd/gegede-example/ggdex/__init__.py:81-97 | the nested ii, jj, kk loops give exactly the reference cube placements |
| Rubik.PlaceSlice | python/duneggd/gegede-example/ggdex/__init__.py:82-96 | the jj loop for one ii gives exactly the blocks of that slice |
| Rubik.PlaceColumn | python/duneggd/gegede-example/ggdex/__init__.py:83-95 | the kk loop for one (ii, jj) gives exactly the blocks of that column |
| Rubik.PlaceCell | python/duneggd/gegede-example/ggdex/__init__.py:84-93 | nothing at the centre, otherwise the block chosen by which = sum of abs - 1 at trip * step, named after the trip |
| Rubik.FirstVolumesPrefix | python/duneggd/gegede-example/ggdex/__init__.py:58-61 | a failure among the first sub-builders is the failure of the whole loop |
| Pmts.Read | python/duneggd/protodunevd/pmts.py:47-67 | reading a parameter gives its value, or KeyError naming the missing key |
| Pmts.HorizontalReads | python/duneggd/protodunevd/pmts.py:64-67 | the four horizontal entries are read in the source's order and a missing one raises KeyError, the top position first |
| Pmts.Passes | python/duneggd/protodunevd/pmts.py:239-273 | the first n passes keep the number of stored positions, leave the positions after n as they were and, when they succeed, append one record each |
| Pmts.GeneratesTwentyFour | python/duneggd/protodunevd/pmts.py:35-87 | a successful generation stores exactly 24 positions |
| Pmts.VerticalAtZeroX | python/duneggd/protodunevd/pmts.py:40-87 | PMTs 1-10 and 15-20 stand at x = 0; PMTs 11-14 and 21-24 at the top or bottom horizontal x, alternately |
| Pmts.HorizontalMirrored | python/duneggd/protodunevd/pmts.py:69-87 | PMTs 21-24 are PMTs 11-14 reflected in z = 0 |
| Pmts.ShortListsFail | python/duneggd/protodunevd/pmts.py:47-62 | position lists too short for indices 4 (y) and 5 (z) stop the generation with IndexError and an empty list |
| Pmts.ConfigureOnce | python/duneggd/protodunevd/pmts.py:23-24 | a second configure changes nothing |
| Pmts.StepRules | python/duneggd/protodunevd/pmts.py:239-268 | a pass takes its rotation from the left and right lists, the coated volume exactly for PMTs in pmt_TPB, keeps the stored position for a rotated PMT and writes pmt_pos_x into it otherwise, and the stored position becomes the placed one |
| Pmts.StepSettles | python/duneggd/protodunevd/pmts.py:256-261 | placing again from the written position gives the same pass |
| Pmts.PassesStayFailed | python/duneggd/protodunevd/pmts.py:239-273 | once a pass fails, later passes change nothing |
| Pmts.PassesAt | python/duneggd/protodunevd/pmts.py:239-273 | after n successful passes, record j and position j are those of pass j on the original position j |
| Pmts.PassesLocal | python/duneggd/protodunevd/pmts.py:239-273 | the first n passes read only the first n positions |
| Pmts.PassesIdempotent | python/duneggd/protodunevd/pmts.py:239-273 | running the passes again on the positions they wrote gives the same records and positions |
| Pmts.PlacedByRules | python/duneggd/protodunevd/pmts.py:235-273 | a successful place_pmts makes one placement per stored position, each following the rules of its pass, and each stored position becomes its placement's |
| Pmts.PlaceIdempotent | python/duneggd/protodunevd/pmts.py:235-273 | placing twice gives the same placements and positions: the second call writes the x the first wrote |
| Pmts.PmtBuilder.constructor | python/duneggd/protodunevd/pmts.py:9-13 | a fresh builder has no parameters, no positions and is not configured |
| Pmts.PmtBuilder.Configure | python/duneggd/protodunevd/pmts.py:15-33 | configure changes the builder exactly as the reference ConfigureOutcome does |
| Pmts.PmtBuilder.GeneratePositions | python/duneggd/protodunevd/pmts.py:35-87 | generate_pmt_positions changes the builder exactly as the reference GenerateOutcome does |
| Pmts.PmtBuilder.PlacePmts | python/duneggd/protodunevd/pmts.py:235-273 | place_pmts returns the placements and updates the positions exactly as the reference PlaceOutcome does |
| Crt.CryoPos | python/duneggd/protodunevd/crt.py:146-149 | the cryostat position is read exactly when the steel parameters are set and hold posCryoInDetEnc with that axis, and is that entry |
| Crt.AxisAt | python/duneggd/protodunevd/crt.py:146-151 | a horizontal module coordinate, when computed, is the cryostat position plus the survey origin plus the module's base entry plus its sign times the spacing, each entry present |
| Crt.ZAt | python/duneggd/protodunevd/crt.py:152-154 | a module's z, when computed, is the survey origin plus its z entry plus its sign times ModuleOff_z, each entry present |
| Crt.EntryParts | python/duneggd/protodunevd/crt.py:145-155 | a module position is computed exactly when its x, y and z are, and is made of those three |
| Crt.EntriesPrefix | python/duneggd/protodunevd/crt.py:145-169 | processing the first n rows of a table without failure appends exactly n entries |
| Crt.BeamAt | python/duneggd/protodunevd/crt.py:173-175 | a beam spot coordinate is computed exactly when the cryostat position, survey origin and beam-spot entries exist and the configured origin is not None, and is their sum |
| Crt.BeamOutcome | python/duneggd/protodunevd/crt.py:173-175 | setting the beam spot changes nothing but the beam spot coordinates |
| Crt.CalculateOutcome | python/duneggd/protodunevd/crt.py:71-175 | a successful calculate_positions leaves 16 downstream and 16 upstream entries |
| Crt.ModulePlacements | python/duneggd/protodunevd/crt.py:334-366 | the first n module placements of one side, placement i being module i + 1 at entry i |
| Crt.TableIndices | python/duneggd/protodunevd/crt.py:98-142 | each table has 16 rows, row i carrying index i and z sign +1 |
| Crt.QuadrantShape | python/duneggd/protodunevd/crt.py:98-142 | in each quadrant, two flat rows differ only in the x sign and two upright rows differ only in the y sign |
| Crt.UpstreamMirrorsDownstream | python/duneggd/protodunevd/crt.py:98-142 | the upstream table is the downstream table with the US prefix for DS |
| Crt.EntriesAt | python/duneggd/protodunevd/crt.py:145-169 | after n successful rows, entry j is row j's computed position with row j's rotation |
| Crt.EntriesStayFailed | python/duneggd/protodunevd/crt.py:145-169 | once a row raises, later rows change nothing |
| Crt.CalculatedEntries | python/duneggd/protodunevd/crt.py:71-169 | after a successful calculation, downstream and upstream entry i are row i of the respective table |
| Crt.SpacingOnOneAxis | python/duneggd/protodunevd/crt.py:148-151 | ModuleLongCorr is the x spacing exactly for the upright rows and the y spacing exactly for the flat rows; the other axis uses ModuleSMDist |
| Crt.OppositeSigns | python/duneggd/protodunevd/crt.py:146-151 | two modules on one base with opposite signs are twice the spacing apart |
| Crt.FlatPairSideBySide | python/duneggd/protodunevd/crt.py:98-155 | the two flat modules of a quadrant lie 2 * ModuleSMDist apart along x, at the same y and z |
| Crt.UprightPairSideBySide | python/duneggd/protodunevd/crt.py:98-155 | the two upright modules of a quadrant lie 2 * ModuleSMDist apart along y, at the same x and z |
| Crt.ZOffset | python/duneggd/protodunevd/crt.py:152-154 | every module's z is the survey origin plus its z entry plus one ModuleOff_z |
| Crt.BeamSpotSet | python/duneggd/protodunevd/crt.py:173-175 | a successful calculation sets all three beam spot coordinates, which requires all three origins to be set |
| Crt.CalculateFailure | python/duneggd/protodunevd/crt.py:71-175 | a failed calculation keeps in each list exactly the entries computed for the rows before the failing row, and the failure is that of the next row (downstream first, the upstream list staying empty); the beam spot changes only after both tables are complete |
| Crt.EntriesKept | python/duneggd/protodunevd/crt.py:145-169 | the rows processed keep their computed entries in order, and a failure is the computation of the row right after them |
| Crt.EntriesLength | python/duneggd/protodunevd/crt.py:145-169 | n rows append at most n entries, and fewer when one fails |
| Crt.ConfigureOnce | python/duneggd/protodunevd/crt.py:47-69 | a second configure changes nothing |
| Crt.PlacedModules | python/duneggd/protodunevd/crt.py:320-398 | with the HD switch, 16 upstream then 16 downstream modules are placed at their entries; with the DP switch, the two dual-phase modules follow |
| Crt.PlaceHdModules | python/duneggd/protodunevd/crt.py:332-366 | the 32 HD placements are the upstream modules followed by the downstream ones |
| Crt.ProcessTable | python/duneggd/protodunevd/crt.py:145-169 | one table's loop gives the same outcome as processing every row in order |
| Crt.CrtBuilder.constructor | python/duneggd/protodunevd/crt.py:15-23 | a new builder has every parameter None and is not configured |
| Crt.CrtBuilder.Configure | python/duneggd/protodunevd/crt.py:25-69 | configure stores non-empty tables, the origins and the switches, but only on the first call |
| Crt.CrtBuilder.SetBeamSpot | python/duneggd/protodunevd/crt.py:173-175 | the new state is the beam spot outcome of the old state |
| Crt.CrtBuilder.CalculatePositions | python/duneggd/protodunevd/crt.py:71-175 | the new state and result are the calculation outcome of the old state |
| Crt.CrtBuilder.PlaceInVolume | python/duneggd/protodunevd/crt.py:320-398 | recalculates the positions, then returns the placements appended to the enclosure |
| PdCathode.VoidGridAt | python/duneggd/protodunevd/cathode.py:49-66 | the void list has 16 entries; void (i, j) is entry 4 i + j |
| PdCathode.VoidsMatchCathodeGrid | python/duneggd/protodunevd/cathode.py:49-66 | void (i, j) sits where the far-detector cathode grid places void (4 - i, 4 - j) |
| PdCathode.RowMatchesGrid | python/duneggd/protodunevd/cathode.py:52-57 | a void row offset equals the far-detector cathode grid's y offset for row 4 - n |
| PdCathode.ColumnMatchesGrid | python/duneggd/protodunevd/cathode.py:59-64 | a void column offset equals the far-detector cathode grid's z offset for column 4 - n |
| PdCathode.VoidPositions | python/duneggd/protodunevd/cathode.py:46-66 | the nested loops append exactly the 16-entry void grid |
| PdCathode.VoidRowAt | python/duneggd/protodunevd/cathode.py:50-66 | the inner loop appends the voids of row i, column by column |
| PdCathode.VoidOffset | python/duneggd/protodunevd/cathode.py:52-64 | one void coordinate, computed with the border counted once fewer on the near side of the centre |
| PdCathode.WithCathode | python/duneggd/protodunevd/cathode.py:37-66 | an empty cathode dictionary changes nothing; otherwise it becomes the parameters, with mesh sizes copied from the void sizes and the void grid computed from its entries, which must exist |
| PdCathode.WithTpc | python/duneggd/protodunevd/cathode.py:71-80 | an empty TPC dictionary changes nothing; otherwise widthCathode becomes widthCRP, which must exist along with lengthCRP and the parameters; the voids are untouched |
| PdCathode.WithArapuca | python/duneggd/protodunevd/cathode.py:82-83 | an empty X-ARAPUCA dictionary changes nothing; otherwise only the mesh rod radius is copied |
| PdCathode.WithOverrides | python/duneggd/protodunevd/cathode.py:86-87 | keywords succeed exactly when parameters exist; the keys become the union, keywords win and other entries stay |
| PdCathode.KeywordsOverride | python/duneggd/protodunevd/cathode.py:16-94 | after configure, a keyword's value is the final value of its entry |
| PdCathode.VoidsFromCathodeDictionary | python/duneggd/protodunevd/cathode.py:37-87 | the voids come from the cathode dictionary alone, whatever the keyword overrides |
| PdCathode.TpcSetsWidth | python/duneggd/protodunevd/cathode.py:71-74 | without overrides, a TPC dictionary sets widthCathode to widthCRP |
| PdCathode.ReadBase | python/duneggd/protodunevd/cathode.py:215-221 | the base reads succeed only when heightCathode, widthCathode and lengthCathode are set, and return those values |
| PdCathode.CrmCount | python/duneggd/protodunevd/cathode.py:233-234 | a CRM count is the given value, or 4 when absent |
| PdCathode.Tiles | python/duneggd/protodunevd/cathode.py:275-283 | a module has four X-ARAPUCA tiles when the builder is given, and none otherwise |
| PdCathode.FirstNear | python/duneggd/protodunevd/cathode.py:317-320 | the search returns the first tile within 10 cm in y and 1 cm in z of the void, or None when no tile is |
| PdCathode.ReadMesh | python/duneggd/protodunevd/cathode.py:313-328 | the separation is read, and can fail, only when there is a void; the mesh width and rod radius are kept as present or absent, for the voids that read them |
| PdCathode.VolumesDistinct | python/duneggd/protodunevd/cathode.py:261-365 | tile, window and mesh placements are never cathode module placements |
| PdCathode.CellModules | python/duneggd/protodunevd/cathode.py:254-365 | of one module's placements, exactly the first is a cathode module |
| PdCathode.TileVolumes | python/duneggd/protodunevd/cathode.py:283-308 | the tile placements use only the wall and window volumes |
| PdCathode.MeshVolumes | python/duneggd/protodunevd/cathode.py:322-365 | the mesh placements use only the mesh and X-ARAPUCA mesh volumes |
| PdCathode.RowModules | python/duneggd/protodunevd/cathode.py:247-272 | the cathode modules of one row are placed in column order |
| PdCathode.GridModuleList | python/duneggd/protodunevd/cathode.py:246-272 | the cathode modules of the grid are placed row by row |
| PdCathode.GridModules | python/duneggd/protodunevd/cathode.py:246-272 | an m-by-n grid places m n cathode modules, module (i, j) at row-major index i n + j, non-TCO in row 0 and TCO elsewhere |
| PdCathode.MeshSkipRule | python/duneggd/protodunevd/cathode.py:313-365 | a void gets its own mesh exactly when no tile lies over it; otherwise two X-ARAPUCA meshes are placed with the switch on, and none with it off; a void with no tile over it fails exactly when mesh_width is missing, one with a tile exactly when the switch is on and the rod radius is missing |
| PdCathode.GridFailuresAllowed | python/duneggd/protodunevd/cathode.py:313-365 | every failed read of a grid's voids is a missing mesh_width, or a missing rod radius with the switch on |
| PdCathode.SwitchOffNeedsNoRodRadius | python/duneggd/protodunevd/cathode.py:82-83 | with the switch off and mesh_width present the whole grid is placed, whether or not the rod radius was ever set |
| PdCathode.DefaultGrid | python/duneggd/protodunevd/cathode.py:233-247 | with no CRM counts given, place_in_volume places a 2-by-2 grid |
| PdCathode.CathodeBuilder.constructor | python/duneggd/protodunevd/cathode.py:12-14 | a new builder has no parameters, no voids, and the mesh switch on |
| PdCathode.CathodeBuilder.Configure | python/duneggd/protodunevd/cathode.py:16-94 | configure succeeds exactly when the staged configuration does, and a failure leaves the builder unchanged |
| PdCathode.CathodeBuilder.PlaceInVolume | python/duneggd/protodunevd/cathode.py:204-365 | place_in_volume fails at the first failing read in the source's order (base entries, then for a non-empty grid the X-ARAPUCA frame, the void list, the unbound tile list, the separation, then each void's mesh width or rod radius in placement order) and otherwise returns the module grid |
| PdCathode.PlaceGrid | python/duneggd/protodunevd/cathode.py:246-365 | the grid loop gives the X-ARAPUCA frame failure when there is at least one module, otherwise the first failed mesh read in placement order, otherwise the whole grid |
| PdCathode.CathodeStage | python/duneggd/protodunevd/cathode.py:37-66 | the first configure stage equals its specification |
| PdCathode.TilesAre | python/duneggd/protodunevd/cathode.py:278-280 | the tiles the X-ARAPUCA builder returns are the ones the model's grid uses |
| PdCathode.PlaceTiles | python/duneggd/protodunevd/cathode.py:283-308 | each tile's wall and window are placed, in tile order |
| PdCathode.PlaceMeshes | python/duneggd/protodunevd/cathode.py:313-365 | every void of the module is handled in order, and the first void whose mesh size is missing ends the loop with that failure |
| PdCathode.PlaceMesh | python/duneggd/protodunevd/cathode.py:314-365 | one void gives its mesh, or the meshes over and under its tile, reading mesh_width or the rod radius only there |
| PdCathode.PlaceCell | python/duneggd/protodunevd/cathode.py:254-365 | one module gives the module, then its tiles, then its meshes, or the first failed mesh read |
| PdCathode.FindTile | python/duneggd/protodunevd/cathode.py:317-320 | the loop with break finds the first tile over the void |
| CathodeGrid.Walk | python/duneggd/dunefdvd/CathodeGrid.py:18-39 | with a stacking cut, each step's result is a boolean subtraction of its first solid, down to the step at (1, 1) |
| CathodeGrid.ConstructGrid | python/duneggd/dunefdvd/CathodeGrid.py:18-39 | the recursion returns a subtraction of the void named CathodeGrid, on the same block, with one layer per remaining grid step |
| CathodeGrid.WalkLayers | python/duneggd/dunefdvd/CathodeGrid.py:18-39 | the recursion keeps the layers already cut, keeps the base block, and adds one layer per remaining step |
| CathodeGrid.WalkCell | python/duneggd/dunefdvd/CathodeGrid.py:18-39 | every cell still to visit is cut at its own step's layer |
| CathodeGrid.FullGrid | python/duneggd/dunefdvd/CathodeGrid.py:18-54 | from (4, 4) the grid has 16 layers, and cell (y, z) is cut at layer (4 - y) 4 + (5 - z) |
| CathodeGrid.GridCell | python/duneggd/dunefdvd/CathodeGrid.py:18-54 | each of the 16 cells is cut, at its position, in its own layer |
| CathodeGrid.StepIndexInjective | python/duneggd/dunefdvd/CathodeGrid.py:22-26 | distinct cells have distinct step numbers |
| CathodeGrid.CutStacks | python/duneggd/dunefdvd/CathodeGrid.py:29-33 | each step cuts the void from the solid built so far |
| CathodeGrid.StepNamesDistinct | python/duneggd/dunefdvd/CathodeGrid.py:22-26 | distinct cells give distinct intermediate solid names |
| CathodeGrid.GridNotNumbered | python/duneggd/dunefdvd/CathodeGrid.py:26-28 | the final name CathodeGrid never collides with a numbered step name |
| CathodeGrid.VoidsSymmetric | python/duneggd/dunefdvd/CathodeGrid.py:20-21 | the void offsets are symmetric about the cathode centre in y and in z |
| CathodeGrid.VoidSpacing | python/duneggd/dunefdvd/CathodeGrid.py:20-21 | adjacent voids are one void size plus one border apart, and two borders across the centre |
| CathodeGrid.GridVolume | python/duneggd/dunefdvd/CathodeGrid.py:45-57 | the grid volume is volCathodeGrid, of G10, on the cathode block with 16 voids cut |
| CathodeGrid.GridVolumeName | python/duneggd/dunefdvd/CathodeGrid.py:55 | the volume name is vol followed by the final solid's name |
| CathodeGrid.Construct | python/duneggd/dunefdvd/CathodeGrid.py:41-59 | a missing heightCathode exits with status 1; success gives volCathodeGrid with 16 voids cut |
| CathodeGrid.Configure | python/duneggd/dunefdvd/CathodeGrid.py:10-16 | an unknown keyword raises ValueError; otherwise the keywords replace the Cathode section, each keyword's value kept |
| CathodeGrid.Build | python/duneggd/dunefdvd/CathodeGrid.py:41-59 | construct derives the parameters first; if that fails the store is unchanged, else construction reads the derived state |
| XArapuca.ReadFrame | python/duneggd/protodunevd/xarapuca.py:51-63 | the frame entries are read exactly when both dictionaries are set and hold GapPD, ArapucaOut_x, widthCathodeVoid, CathodeBorder and lengthCathodeVoid |
| XArapuca.MeshBars | python/duneggd/protodunevd/xarapuca.py:82-89 | the bar counts are the truncated quotients of the void length and width by the rod separation; a zero separation raises ZeroDivisionError |
| XArapuca.Derive | python/duneggd/protodunevd/xarapuca.py:73-92 | the derived parameters add the mesh separation (base plus rod outer radius), the mesh-window distance (1.8 cm plus mesh outer radius) and, with a cathode dictionary, the bar counts; every other entry is kept |
| XArapuca.BottomLists | python/duneggd/protodunevd/xarapuca.py:43-71 | the bottom lists are computed exactly when both dictionaries are non-empty and the frame reads succeed; otherwise they are left as they were |
| XArapuca.DerivedParams | python/duneggd/protodunevd/xarapuca.py:73-92 | without parameters nothing is derived; with them the result is the derivation |
| XArapuca.ConfigureState | python/duneggd/protodunevd/xarapuca.py:19-94 | a configured builder is unchanged; a first configure marks it configured and keeps a non-empty cathode dictionary |
| XArapuca.ConfigureOnce | python/duneggd/protodunevd/xarapuca.py:31-32 | a second configure returns early and changes nothing |
| XArapuca.ConfiguredListsMirror | python/duneggd/protodunevd/xarapuca.py:47-71 | after configure the bottom lists have four entries, entry 2 the negation of entry 1 and entry 3 the negation of entry 0 |
| XArapuca.ConfiguredBarCounts | python/duneggd/protodunevd/xarapuca.py:82-89 | with a positive separation and non-negative void sizes, each bar count is the largest whole number of separations that fits in the void |
| XArapuca.ConfiguredParams | python/duneggd/protodunevd/xarapuca.py:35-92 | configure's parameters are the derivation from the given or held dictionaries |
| XArapuca.DerivedBars | python/duneggd/protodunevd/xarapuca.py:82-89 | the derived bar counts are int(lengthCathodeVoid / separation) and int(widthCathodeVoid / separation) |
| XArapuca.CountFits | python/duneggd/protodunevd/xarapuca.py:82-89 | a truncated quotient of a non-negative length by a positive separation is a count of separations that fits within the length, with less than one more left over |
| XArapuca.CathodeTileUsesBottomLists | python/duneggd/protodunevd/xarapuca.py:500-520 | tile i sits at the cathode centre's x, offset in z by bottom-list entry i and in y by entry i, except tile 3 of row 1 which takes entry 2's y |
| XArapuca.CathodeTilesDistinct | python/duneggd/protodunevd/xarapuca.py:500-520 | with non-zero and distinct frame z offsets, the four tiles over a module are at distinct positions |
| XArapuca.ReadLateral | python/duneggd/protodunevd/xarapuca.py:550-577 | the lateral reads succeed exactly with ArapucaOut_y, ArapucaAcceptanceWindow_y, the frame distances, widthCathode and the wall spacings present, and return them |
| XArapuca.LateralWallsMirror | python/duneggd/protodunevd/xarapuca.py:548-563 | tile i + 4 has tile i's x and z, is shifted in y by the right-wall offset, has its sensor offset mirrored and has the other rotation |
| XArapuca.LateralXSteps | python/duneggd/protodunevd/xarapuca.py:566-577 | the second tile of each pair is VerticalPDdist + 1 cm below the first for tiles 1 and 5, and above it for tiles 3 and 7 |
| XArapuca.AppendBottomLists | python/duneggd/protodunevd/xarapuca.py:47-71 | the appends in configure build exactly the bottom lists |
| XArapuca.ConfigureSteps | python/duneggd/protodunevd/xarapuca.py:35-94 | a first configure computes the bottom lists, then the derived parameters, failing with the first failure, and otherwise stores both and marks the builder configured |
| XArapuca.ListsStage | python/duneggd/protodunevd/xarapuca.py:43-71 | the list stage gives the bottom lists or their failure |
| XArapuca.XArapucaBuilder.constructor | python/duneggd/protodunevd/xarapuca.py:14-17 | a new builder holds no dictionaries or lists and is not configured |
| XArapuca.XArapucaBuilder.Configure | python/duneggd/protodunevd/xarapuca.py:19-94 | configure succeeds exactly when its specification does, and a failure leaves the builder unchanged |
| XArapuca.XArapucaBuilder.CathodePositions | python/duneggd/protodunevd/xarapuca.py:496-522 | calculate_cathode_positions fails exactly when the frame reads do, and otherwise returns the four tiles in order |
| XArapuca.XArapucaBuilder.LateralPositions | python/duneggd/protodunevd/xarapuca.py:524-589 | calculate_lateral_positions fails exactly when the lateral reads do, and otherwise returns the eight tiles in order |
| FdFieldCage.UnionSequence | python/duneggd/dunefdvd/FieldCage.py:117-159 | the chain has seven union layers on the long tube, adding corner, short, corner, long, corner, short, corner in that order, and ends named FieldShaperSolid or FieldShaperSolidSlim |
| FdFieldCage.PieceTable | python/duneggd/dunefdvd/FieldCage.py:119-127 | union step ui adds a short tube when ui is 2 or 6, a long tube when ui is 4, and the corner torus otherwise |
| FdFieldCage.ChainLayers | python/duneggd/dunefdvd/FieldCage.py:117-159 | after n steps the chain has n layers on the long tube, layer k being the chain after k + 1 steps |
| FdFieldCage.PositionNamesDistinct | python/duneggd/dunefdvd/FieldCage.py:135-138 | the 14 union positions of the thick and slim chains have distinct names |
| FdFieldCage.UnionNamesDistinct | python/duneggd/dunefdvd/FieldCage.py:130-134 | the 14 union solids of the thick and slim chains have distinct names |
| FdFieldCage.NumberedDistinct | python/duneggd/dunefdvd/FieldCage.py:130-136 | a prefix followed by different numbers gives different names |
| FdFieldCage.NumberedNotFourSlim | python/duneggd/dunefdvd/FieldCage.py:136-138 | no numbered position name equals esquinapos4Slim |
| FdFieldCage.SlimPrefix | python/duneggd/dunefdvd/FieldCage.py:130-131 | a thick union name never equals a slim union name |
| FdFieldCage.RingCloses | python/duneggd/dunefdvd/FieldCage.py:100-107 | the seven pieces join end to end around a closed ring, and the layout is mirror-symmetric in z |
| FdFieldCage.WindowedShortTube | python/duneggd/dunefdvd/FieldCage.py:29-62 | with eight CRM rows, the slim short tube is a slim window section with a thick piece on each side, filling the short tube's length |
| FdFieldCage.PlainShortTube | python/duneggd/dunefdvd/FieldCage.py:21-28 | otherwise the slim short tube is a single slim tube of the short tube's length |
| FdFieldCage.WindowReadAtEightRows | python/duneggd/dunefdvd/FieldCage.py:21-31 | the window length is read exactly when nCRM_y is 8 |
| FdFieldCage.Configure | python/duneggd/dunefdvd/FieldCage.py:10-16 | an unknown keyword raises ValueError; otherwise each keyword's value goes into the FieldCage section, whose keys stay the same |
| FdFieldCage.UnionShapes | python/duneggd/dunefdvd/FieldCage.py:117-159 | the loop builds the thick and slim seven-step chains together |
| FdFieldCage.Build | python/duneggd/dunefdvd/FieldCage.py:66-171 | construct derives the parameters first; if that fails the store is unchanged, else the volumes are built from the derived state |
| PdFieldCage.ProfileChain | python/duneggd/protodunevd/fieldcage.py:107-158 | the profile unions a four-step chain with itself; step k is the k-th boolean operation of the table applied to the previous step, starting from the half circle |
| PdFieldCage.StepLayers | python/duneggd/protodunevd/fieldcage.py:139-146 | after n + 1 operations the chain has n + 1 layers on the half circle, layer k being the chain after k + 1 operations |
| PdFieldCage.ComponentLengths | python/duneggd/protodunevd/fieldcage.py:55-105 | every component is half the profile length long, and the cutter 0.01 cm longer |
| PdFieldCage.ConfigureFails | python/duneggd/protodunevd/fieldcage.py:15-53 | a first configure fails exactly when a dictionary is given without one of the entries the derived dimensions use; a failed configure does not mark the builder configured |
| PdFieldCage.DerivedDims | python/duneggd/protodunevd/fieldcage.py:39-48 | length and width are the base sizes less two torus radii, the cut sizes 0.02 cm more, and the cage sizes 2 cm more than width, length and separation times the shaper count |
| PdFieldCage.ConfigureOnce | python/duneggd/protodunevd/fieldcage.py:23-25 | a second configure returns early and changes nothing |
| PdFieldCage.PlacedShapers | python/duneggd/protodunevd/fieldcage.py:488-530 | after configure, place_in_volume places one shaper per count, shaper i at offset_x - first_shaper_to_roof - i separations, slim exactly at the ends with their rotation |
| PdFieldCage.ShapersEvenlySpaced | python/duneggd/protodunevd/fieldcage.py:496-499 | consecutive shapers are one separation apart in x |
| PdFieldCage.ShaperPosition | python/duneggd/protodunevd/fieldcage.py:496-528 | shaper i is slim exactly when i < 36 or i > 77, with the slim rotation; the others are thick, with no rotation |
| PdFieldCage.CreateProfile | python/duneggd/protodunevd/fieldcage.py:107-158 | the loop over the operation table builds the specified profile |
| PdFieldCage.FieldCageBuilder.constructor | python/duneggd/protodunevd/fieldcage.py:9-14 | a new builder holds no parameters and is not configured |
| PdFieldCage.FieldCageBuilder.Configure | python/duneggd/protodunevd/fieldcage.py:15-53 | configure gives the specified outcome and state |
| PdFieldCage.FieldCageBuilder.PlaceInVolume | python/duneggd/protodunevd/fieldcage.py:488-530 | place_in_volume returns the specified placements |
| FdCryostat.SteppedClosed | python/duneggd/dunefdvd/Cryostat.py:174-175 | a coordinate advanced k times by a step is the start plus k steps |
| FdCryostat.MakeVolume | python/duneggd/dunefdvd/Cryostat.py:11-23 | the volume has the given material and shape, the given name or else vol plus the shape's name, and three auxiliary parameters exactly when aux is set |
| FdCryostat.DefaultNamesDistinct | python/duneggd/dunefdvd/Cryostat.py:11-15 | two volumes named by default have the same name exactly when their shapes do |
| FdCryostat.Configure | python/duneggd/dunefdvd/Cryostat.py:26-32 | an unknown keyword raises ValueError; otherwise each keyword's value goes into the Cryostat section, whose keys stay the same |
| FdCryostat.CrmCoordClosed | python/duneggd/dunefdvd/Cryostat.py:146-175 | the k-th CRM coordinate is the start plus k CRM sizes plus one border before the first CRM and two more before every even CRM after it |
| FdCryostat.CrmGaps | python/duneggd/dunefdvd/Cryostat.py:150-175 | consecutive CRMs are one CRM size apart, plus two borders when the later one has an even index |
| FdCryostat.TpcCellLength | python/duneggd/dunefdvd/Cryostat.py:158-172 | each CRM gives a top TPC, plus a bottom one when nCRM_x is 2 |
| FdCryostat.TpcPlaced | python/duneggd/dunefdvd/Cryostat.py:140-176 | with the TPC switch on, CRM (ii, jj) is TPC number ii nCRM_y + jj, placed at the top x with its row's y and column's z, and, for two drift volumes, mirrored to the bottom x |
| FdCryostat.PlaceTpc | python/duneggd/dunefdvd/Cryostat.py:140-176 | placeTPC places exactly the specified TPC placements |
| FdCryostat.PlaceCrm | python/duneggd/dunefdvd/Cryostat.py:158-173 | one CRM gives its top placement and, with nCRM_x = 2, its bottom one |
| FdCryostat.PlaceTpcRow | python/duneggd/dunefdvd/Cryostat.py:154-174 | the inner loop places one row of CRMs and advances the index by nCRM_y |
| FdCryostat.FramePitch | python/duneggd/dunefdvd/Cryostat.py:234-267 | frame (ii, jj) is centred one cathode width per row and one cathode length per column from the enclosure corner |
| FdCryostat.CathodeOpDetsPlaced | python/duneggd/dunefdvd/Cryostat.py:228-268 | with pdsconfig 0 each cathode frame gets four detectors at the frame x with the fixed rotation; inner frames use bottom-list entry ara, and the edge frames take the substitutes lines 245-252 choose |
| FdCryostat.PlaceOpDetsCathode | python/duneggd/dunefdvd/Cryostat.py:228-268 | placeOpDetsCathode places exactly the specified cathode detectors |
| FdCryostat.PlaceFrameRow | python/duneggd/dunefdvd/Cryostat.py:239-265 | the middle loop places one row of frames and advances the index by nCRM_z // 2 |
| FdCryostat.PlaceFrame | python/duneggd/dunefdvd/Cryostat.py:240-264 | one frame gives its four detectors |
| FdCryostat.ShaperTotal | python/duneggd/dunefdvd/Cryostat.py:278 | with the field cage switch on, int(NFieldShapers) + 1 shapers are placed |
| FdCryostat.ShaperKind | python/duneggd/dunefdvd/Cryostat.py:279-309 | shaper i is thick exactly when pdsconfig is 0 and i separations is at most 250 cm; every shaper has the same rotation |
| FdCryostat.ShaperSpacing | python/duneggd/dunefdvd/Cryostat.py:279-287 | consecutive shapers are one separation apart, moving down when nCRM_x is 2 and up otherwise |
| FdCryostat.ShaperStep | python/duneggd/dunefdvd/Cryostat.py:280-287 | the x of shaper i + 1 differs from that of shaper i by one separation in the direction of the drift |
| FdCryostat.ThickFirst | python/duneggd/dunefdvd/Cryostat.py:290 | with a positive separation, the thick shapers come before the slim ones |
| FdCryostat.PlaceFieldShaper | python/duneggd/dunefdvd/Cryostat.py:270-310 | placeFieldShaper places exactly the specified shapers |
| FdCryostat.LateralXFirstEight | python/duneggd/dunefdvd/Cryostat.py:322-331 | detectors 0 to 7 of a wall column stand at the first frame distance below the wall top, one vertical pitch lower per step within each group of four |
| FdCryostat.LateralXMirror | python/duneggd/dunefdvd/Cryostat.py:329-333 | detector 8 restarts from the mirrored position of detector 3 of the lower drift volume |
| FdCryostat.LateralXFifteen | python/duneggd/dunefdvd/Cryostat.py:326-333 | detector 15 of a wall column comes back to the x of detector 7 |
| FdCryostat.LateralXPeriodic | python/duneggd/dunefdvd/Cryostat.py:326-333 | from detector 8 on, the x repeats every eight detectors |
| FdCryostat.LateralOverlap | python/duneggd/dunefdvd/Cryostat.py:322-353 | as written, detector 15 of a column is placed at the position and with the rotation of detector 7, and every detector from 16 on at those of the detector eight before it |
| FdCryostat.LateralPlaced | python/duneggd/dunefdvd/Cryostat.py:312-355 | with pdsconfig 0 and nCRM_y 8, each of the nCRM_z // 2 columns holds 8 nCRM_x detectors, detector (j, ara) at index j (8 nCRM_x) + ara |
| FdCryostat.LateralSides | python/duneggd/dunefdvd/Cryostat.py:340-350 | a lateral detector is on the negative-y wall with no rotation exactly when ara % 8 < 4, and otherwise on the positive wall turned 180 degrees about x |
| FdCryostat.PlaceOpDetsLateral | python/duneggd/dunefdvd/Cryostat.py:312-355 | placeOpDetsLateral places exactly the specified lateral detectors |
| FdCryostat.NextLateralX | python/duneggd/dunefdvd/Cryostat.py:326-333 | each step of the loop computes the x of the next lateral detector |
| FdCryostat.PlaceLateralColumn | python/duneggd/dunefdvd/Cryostat.py:326-354 | the inner loop places one column of lateral detectors |
| FdCryostat.ShortLateralPlaced | python/duneggd/dunefdvd/Cryostat.py:357-400 | with pdsconfig 0 and nCRM_y 8, the two short walls at y = -220 cm and 220 cm hold 8 nCRM_x detectors each, with the side and rotation given by ara % 8 < 4 |
| FdCryostat.PlaceOpDetsShortLateral | python/duneggd/dunefdvd/Cryostat.py:357-400 | placeOpDetsShortLateral places exactly the specified short-wall detectors |
| FdCryostat.PlaceShortLateralColumn | python/duneggd/dunefdvd/Cryostat.py:368-399 | the inner loop places one short-wall column |
| FdCryostat.MembOnlyPlaced | python/duneggd/dunefdvd/Cryostat.py:402-440 | with pdsconfig 1 and nCRM_y 8, each column holds 18 membrane detectors, detector (j, ara) at index 18 j + ara |
| FdCryostat.MembSides | python/duneggd/dunefdvd/Cryostat.py:411-438 | membrane detectors 0 to 8 are on the negative-y wall with no rotation and the rest on the positive wall; detectors 0 and 9 stand at the frame x and every other one ArapucaOut_x - FrameToArapucaSpace below it |
| FdCryostat.WallLayoutsExclusive | python/duneggd/dunefdvd/Cryostat.py:402-404 | by the guards at lines 229, 313 and 403, the lateral and membrane-only layouts are never both placed, and the membrane-only layout excludes the cathode detectors |
| FdCryostat.PlaceOpDetsMembOnly | python/duneggd/dunefdvd/Cryostat.py:402-440 | placeOpDetsMembOnly places exactly the specified membrane detectors |
| FdCryostat.PlaceMembColumn | python/duneggd/dunefdvd/Cryostat.py:412-439 | the inner loop places one column of 18 membrane detectors |
| EcalMod.Configure | python/duneggd/fgt/ECALMod.py:17-34 | configure succeeds exactly when all three values are given; otherwise it raises ValueError naming the first missing one in the order ecalThickness, leadThickness, nSBPlanes; on success it stores them with lead as the material |
| EcalMod.UnrotatedPrefix | python/duneggd/fgt/ECALMod.py:63-81 | of the first k planes, (k + 1) / 2 keep the plane's own orientation |
| EcalMod.PlaneOrientation | python/duneggd/fgt/ECALMod.py:66-79 | plane i is turned a quarter turn about z exactly when i is odd, and otherwise is not rotated |
| EcalMod.PlanesSpaced | python/duneggd/fgt/ECALMod.py:64 | consecutive planes are one plane thickness plus one lead thickness apart |
| EcalMod.PlaneZStep | python/duneggd/fgt/ECALMod.py:64 | the z formula advances by one plane plus one lead layer per index |
| EcalMod.PlanesFillModule | python/duneggd/fgt/ECALMod.py:47-64 | the stack fills the module: a lead layer first at the -z face, and the last plane's far face on the +z face |
| EcalMod.LastPlaneZ | python/duneggd/fgt/ECALMod.py:47-64 | the last plane's far face is at half the computed module thickness |
| EcalMod.Construct | python/duneggd/fgt/ECALMod.py:38-85 | construct makes the module volume and places the planes in order; n1 counts the unrotated planes, (n + 1) / 2, and n2 the rest, n / 2; with no planes the closing report reads an unassigned loop variable |
| SteelSupport.CentralLengths | python/duneggd/protodunevd/steelsupport.py:40-58 | each central grid cell places exactly one unit |
| SteelSupport.EdgeLengths | python/duneggd/protodunevd/steelsupport.py:61-133 | each edge row places four units: east, south, west and north |
| SteelSupport.SupportCount | python/duneggd/protodunevd/steelsupport.py:26-137 | a support with an n-by-n grid places n n central units and 4 n edge units |
| SteelSupport.CentralAt | python/duneggd/protodunevd/steelsupport.py:40-58 | central unit (i, j) is placement i n + j, at x = -320 + 160 i cm and y = -320 + 160 j cm in the plane of the support |
| SteelSupport.EdgeAt | python/duneggd/protodunevd/steelsupport.py:61-133 | after the grid, edge row i places its four side units in the order east, south, west, north |
| SteelSupport.GridCentred | python/duneggd/protodunevd/steelsupport.py:40-43 | the grid coordinates are symmetric about 0 and one central unit width apart |
| SteelSupport.EdgesFrameGrid | python/duneggd/protodunevd/steelsupport.py:61-133 | for each of the three supports, every edge unit touches the outer row of the grid and reaches the support's outer face; east and west are mirrored in x, south and north in y |
| SteelSupport.ConstructSupport | python/duneggd/protodunevd/steelsupport.py:26-137 | construct_TB, construct_US and construct_LR each make their support volume and place the grid, then the edge units |
| SteelSupport.PlaceCentralGrid | python/duneggd/protodunevd/steelsupport.py:40-58 | the nested loops place the grid row by row |
| SteelSupport.PlaceEdgeUnits | python/duneggd/protodunevd/steelsupport.py:61-133 | the edge loop places the four side units of each row in turn |
| SteelSupport.PlaceCentralRow | python/duneggd/protodunevd/steelsupport.py:41-58 | the inner loop places one row of central units |
| SteelSupport.OneAxisEach | python/duneggd/protodunevd/steelsupport.py:592-677 | Top and Bottom carry a y offset, US and DS a z offset and LS and RS an x offset; each position is the parameter plus its offset on that axis, and 0 on the others |
| SteelSupport.RotatedEntries | python/duneggd/protodunevd/steelsupport.py:687-705 | exactly the US and DS placements carry no rotation; the others use the rotation named rotSteelSupport_ plus their name |
| SteelSupport.PlacedInOrder | python/duneggd/protodunevd/steelsupport.py:666-707 | with every position parameter present, all six supports are placed in table order, each named placeSteelSupport_ plus its name |
| SteelSupport.MissingParameter | python/duneggd/protodunevd/steelsupport.py:671-677 | a missing position parameter raises KeyError for it, after the placements before it |
| SteelSupport.SteelSupportBuilder.constructor | python/duneggd/protodunevd/steelsupport.py:9-10 | a new builder holds no steel parameters |
| SteelSupport.SteelSupportBuilder.Configure | python/duneggd/protodunevd/steelsupport.py:12-24 | configure keeps a copy of a non-empty parameter dictionary and otherwise leaves the parameters as they were |
| SteelSupport.SteelSupportBuilder.PlaceInVolume | python/duneggd/protodunevd/steelsupport.py:583-707 | place_in_volume gives the specified outcome for the six table entries |
| SteelSupport.PlaceEntries | python/duneggd/protodunevd/steelsupport.py:666-707 | the loop over the table gives the same outcome as placing each entry in order |
| SteelSupport.PlaceConfig | python/duneggd/protodunevd/steelsupport.py:668-705 | one table entry gives its specified placement |
| Dicts.Get | python/duneggd/protodunevd/xarapuca.py:51-63 | a dictionary read succeeds exactly when the dictionary is set and holds the key, and gives its value; reading from None is a TypeError and a missing key a KeyError |
| Dicts.Trunc | python/duneggd/protodunevd/xarapuca.py:82-89 | Python's int() on a float truncates toward zero: the result is within one of the argument, on the zero side |
| Dicts.TruncCountsSpacings | python/duneggd/protodunevd/xarapuca.py:82-89 | int(a / s) for a positive spacing counts the whole spacings that fit in a non-negative length |
| Strings.RemoveAll | python/duneggd/dunefdvd/Cryostat.py:149 | re.sub with a plain pattern and an empty replacement never lengthens the name |
| Strings.RemovePrefix | python/duneggd/dunefdvd/Cryostat.py:149 | removing vol from a volume name that starts with it, and has no other occurrence, leaves the rest of the name |

## Left out

- gegede itself (shapes, volumes, placements, `get_builder`, `add_volume`) is a foreign library. Its calls are modelled as the records they receive (`Placements`, `Shapes`), in call order; volumes a builder only refers to are named, not built.
- ROOT itself (loading GDML, the navigator, colours, drawing, `TGeoNode` transforms) is a foreign library. The tree the macros walk is the `GeoTree.GeoNode` datatype, node visibility is a set of nodes in `VolumeTraversal.Display`, and the `LocalToMaster` transforms of `volume_sampler.C` are inputs (the transformed corner coordinates).
- Prints, `Info`/`printf` reports and file output are not modelled; `printVolumeSummary` is modelled as the depth-ordered grouping it prints (`VolumeTraversal.VolumeSummary`).
- Floating point is modelled as exact reals. Square roots are a parameter `sqrt`, and wire and pitch directions are inputs instead of sines and cosines, so rounding, trigonometry and the `Tubs` start and delta angles are not modelled.
- Randomness: the random points of the sampling loop in `volume_sampler.C` become the parameter `hit` of `VolumeSampler.Sample` (whether the k-th point lands in the wanted material).
- The navigation part of `Develop-Area/point_walk.C` (the ROOT navigator stepping along a line) is not modelled; only `remove_trailing_nums` is.
- `test/Cryostat.py` and `larfd/Cryostat.py` repeat the APA numbering and `IsIgnoredAPAs` of `Develop-Area/Cryostat.py`; they are not modelled separately.
- ApaCryostat: the entries of `IgnoredAPAs` are modelled as Python `range`s with step 1; other containers that support `in` are not modelled.
- FdCryostat: `construct` and `placeCathodeAndAnode` of `dunefdvd/Cryostat.py` only assemble gegede volumes from the helpers; they are not modelled.
- ParamStore.Params.SetDerived: on a failure (a missing key) the model keeps the old state, while the source keeps the section entries it had already written.
- Rubik: the print at `gegede-example/ggdex/__init__.py` line 60 indexes `dict.items()`, which raises TypeError under Python 3; the print is not modelled, and the model follows line 61, which takes each sub-builder's first volume (IndexError when it has none).
- TpcWires.SplitHalves: the half-plane bounds are proved only for wire lists with no wire whose first end point lies on y = 0 while its second lies above; for such a wire the source computes a lower piece above y = 0.
- PdCathode: construct (cathode.py:96-202) builds gegede shapes and boolean volumes only; it is not modelled, and the volumes it makes are referred to by name.
- TpcWires.ZWires: the loop uses the intended guard (PlaneTooSmall, see Findings) and fails with ValueError on the first wire outside the plane; the guard as written at tpcs.py:436-437 never fires, so the source places every wire, as TpcWires.ZGuardAsWrittenNeverFires and TpcWires.ZGuardCounterexample show.
- TpcWires.ZFrom: uses the same corrected guard as TpcWires.ZWires.
- VolumeSampler.Chain: climbs with the corrected mother search (FindMother, see Findings); as written, findMotherNode at volume_sampler.C:59-72 misses a mother that sits under any daughter but the last, and the source then throws "Didn't find mum" where the model climbs on.
- VolumeSampler.ClimbToWorld: climbs with the corrected mother search, like VolumeSampler.Chain.
- VolumeSampler.Locate: climbs with the corrected mother search, like VolumeSampler.Chain.
- VolumeTraversal.StrLess: names are compared character by character by code point; TString compares their bytes, which gives the same order for ASCII names; other encodings are not modelled.
- PdCathode.CathodeBuilder.PlaceInVolume: on a failure the model returns the failure alone, while the source has already appended the placements made before the failing read to the mother volume.
- PdCathode.CathodeBuilder.Configure: on a failure the model keeps the old state, while the source keeps the dictionary updates made before the failing read.
- XArapuca: construct, construct_cathode_mesh, construct_membrane_mesh and place_lateral_xarapucas (xarapuca.py:96-494, 591-654) create gegede shapes, volumes and placements; they are not modelled. The tile positions they place are modelled by CathodePositions and LateralPositions.
- XArapuca.XArapucaBuilder.Configure: the source writes the derived entries into the caller's own dictionary, which it shares; the model copies values, and on a failure it keeps the old state, while the source keeps what it had already written.
- PdFieldCage: construct_thick_profile, construct_slim_profile and construct (fieldcage.py:160-486) assemble the corner and straight profile pieces into gegede volumes; they are not modelled beyond the profile chain that create_profile builds.
- PdFieldCage: in the source, a failed configure has already set the attributes it read; the model records the dictionary but does not mark the builder configured, matching the exception raised before line 53.
- SteelSupport: construct_unit_volumes (steelsupport.py:139-344) builds the unit boxes and bars with holes from gegede boolean shapes; it is not modelled. The unit volumes appear by name, with the widths the edge placements use.
- SteelSupport: the rotations of place_in_volume are recorded by name; their angles are not modelled.
- EcalMod: the configured ecalThickness is stored but, as in the source, not used; the SBPlane builder is a parameter giving the plane's dimensions, and the prints are not modelled.

## Findings

| source | as written | input that shows it | evidently intended | confidence | as-written member | corrected member |
|---|---|---|---|---|---|---|
| python/duneggd/protodunevd/tpcs.py:436-437 | the Z-wire check `abs(0.5 * lengthPCBActive - abs(zpos)) < 0` compares an absolute value with 0, so it never raises | 12 collection wires per quadrant (nChans['Col'] = 24) at pitch 1 in a plane of length 10: zdelta clamps to 0 and wire 11 of quadrant 2 sits at z = 6.5, outside the half length 5, and is placed | raise ValueError when the wire lies outside the half length: `0.5 * lengthPCBActive - abs(zpos) < 0` | high (not executed) | TpcWires.ZGuardCounterexample | TpcWires.ZWiresFit |
| python/duneggd/larfd/volume_sampler.C:59-72 | findMotherNode overwrites `found` with each daughter's recursive result and returns the last one, so a mother found under an earlier daughter is reported as not found | a world with daughters volA (holding volX) and volB: searching for volX returns false, although `mother_node` was set to volA | stop at the first daughter whose subtree yields the mother and return true | high (not executed) | VolumeSampler.FindMotherAsWrittenMissesEarlierHit | VolumeSampler.FindMotherCorrect |
| python/duneggd/larfd/volume_sampler.C:146-147 | the maximum is updated as `Max(posmin[j], master[j])`, the new minimum against the corner, so it ends as the last corner's coordinate | two corners with coordinate 1 then 0 on an axis: the interval becomes [0, 0] instead of [0, 1] | `posmax[j] = Max(posmax[j], master[j])`, the running maximum | high (not executed) | VolumeSampler.AxisBoundsAsWrittenCounterexample | VolumeSampler.BoundingInterval |
