# outdoor-light, modelled in Dafny

This project models the core of the Foundry VTT module "outdoor-light". The module
separates outdoor light from indoor light with four mechanisms:

- **Outdoor-blocking walls.** During a light sweep, walls flagged as blocking outdoor
  light stop outdoor lights.
- **Curtain walls.** A curtain wall is a door that stops light and sight while closed,
  and goes back to its document's own senses while open.
- **Light-emission walls.** A wall can own a companion ambient light, placed at its
  middle and facing one side. The wall lets that light through.
- **Scene-level controls.** The scene's outdoor-light mode and status are pushed to
  every outdoor light. A small helper places new buttons in the scene controls.

Modules, one per core file:

| module | file | form |
|---|---|---|
| `Documents` | documents.dfy | the host records the module reads and writes: wall and ambient-light documents, the scene (a class with a mutable light table), the partial update payloads and how the host merges them |
| `EdgePatcher` | edge_patcher.dfy | the per-edge decisions (curtain and light sweep) as functions; `Edge` as a class whose senses `applySenseTo` rewrites in place |
| `ClockwiseSweepPolygonExt` | clockwise_sweep_polygon_ext.dfy | the identify phase rewriting the sweep's edges in place, and the test edge given to the inclusion test |
| `CanvasEdgesExt` | canvas_edges_ext.dfy | the wrapped collision test, the clone map and the substitution of clones in the result |
| `ApplyDefaultOutdoorLightSettings` | apply_default_outdoor_light_settings.dfy | the sequence of setter calls the default settings make, and their effect on a light |
| `SceneExt` | scene_ext.dfy | the scene flag fields, the update-data proxy (a class that records changes), and the push to outdoor lights |
| `SceneDocumentHook` | scene_document_hook.dfy | copying a changed maximum darkness to every outdoor light |
| `WallLightEmission` | update_wall_light_emission.dfy | the placement of the companion light and the create, update or delete decision |
| `DoorControl` | door_control.dfy | the curtain icon of a door control |
| `ToolOrder` | get_tool_order_insertion_sequence.dfy | the insertion info, its characterisation, and the sequence generator (a class) |
| `SceneControlsUtils` | scene_controls_utils.dfy | the second copy of the insertion sequence, proved to give the same insertion info |

Each method that changes state is proved against a specification function. The
specification functions carry the lemmas: decision tables, idempotence, round trips,
frame properties, and the agreement between recorded updates and direct setter calls.

## Model

| member | source | states |
|---|---|---|
| Documents.ApplyUpdateIdempotent | src/ts/apps/update_wall_light_emission.ts:52-55 | merging the same update payload into a light twice gives the same light as merging it once |
| Documents.ApplyEmptyUpdate | src/ts/data/scene_ext.ts:178-187 | a payload with nothing recorded leaves the light unchanged |
| Documents.OutdoorIds | src/ts/data/scene_ext.ts:178-182 | an id is selected exactly when the scene has a light under it and that light is flagged outdoor |
| Documents.UpdatedLightsFrame | src/ts/data/scene_document_hook.ts:29-35 | merging the issued payloads keeps every light id and every outdoor flag; lights without a payload are unchanged |
| EdgePatcher.Edge.Clone | src/ts/apps/clockwise_sweep_polygon_ext.ts:76 | the clone is a fresh edge with the same wall document, senses and thresholds, and the original is not written |
| EdgePatcher.Unmodified | src/ts/apps/edge_patcher.ts:96-116 | a new modification has every channel UNCHANGED and keeps the wall document it was built with |
| EdgePatcher.HasModifications | src/ts/apps/edge_patcher.ts:122-126 | true if and only if some channel is not UNCHANGED |
| EdgePatcher.GetEdgeMod | src/ts/apps/edge_patcher.ts:15-35 | no wall document or not a curtain door: unmodified. Closed or locked curtain door: light and sight set to NORMAL, move unchanged. Open curtain door: all three reverted from the document |
| EdgePatcher.GetEdgeModForLight | src/ts/apps/edge_patcher.ts:43-60 | only light is ever modified. NONE exactly when the wall emits the sweep's light; NORMAL exactly when it does not, blocks outdoor light, and the light is outdoor; never a revert |
| EdgePatcher.GetSensFor | src/ts/apps/edge_patcher.ts:134-162 | SET_NONE and SET_NORMAL give that sense with no threshold. UNCHANGED keeps the current value. A revert gives the document's sense and the document threshold in pixels (none for move, for a zero or missing threshold, or for a wall without a scene), or the current value without a document |
| EdgePatcher.RevertedThresholdRoundTrip | src/ts/apps/edge_patcher.ts:146-157 | a reverted threshold exists only for light or sight on a wall with a scene and a non-zero threshold; divided by the grid distance it gives back the document's threshold |
| EdgePatcher.ApplySense | src/ts/apps/edge_patcher.ts:169-176 | the channel takes the decided sense; its threshold slot takes the decided threshold only if the slot exists; every other channel is untouched |
| EdgePatcher.ApplySensesPerChannel | src/ts/apps/edge_patcher.ts:182-186 | applying light, sight and move in turn decides each channel from that channel's input alone |
| EdgePatcher.UnmodifiedIsIdentity | src/ts/apps/edge_patcher.ts:182-186 | a modification without modifications leaves the edge state exactly as it was |
| EdgePatcher.ApplySensesIdempotent | src/ts/apps/edge_patcher.ts:182-186 | applying a modification a second time changes nothing more |
| EdgePatcher.ApplySenseTo | src/ts/apps/edge_patcher.ts:169-176 | the edge's new state is the single-channel application of the decision to its old state |
| EdgePatcher.ApplySensesTo | src/ts/apps/edge_patcher.ts:182-186 | the edge's new state is the three-channel application of the decision to its old state |
| EdgePatcher.LightDecisionIgnoresDoor | src/ts/apps/edge_patcher.ts:43-60 | two walls that agree on emission and outdoor blocking get the same light decision, whatever their curtain flag, door type or door state |
| EdgePatcher.CurtainDecisionTable | src/ts/apps/edge_patcher.ts:15-35 | the curtain decision modifies an edge if and only if its wall is a curtain with a door; it never forces a sense to NONE |
| EdgePatcher.LightDecisionTable | src/ts/apps/edge_patcher.ts:43-60 | the light decision modifies an edge if and only if its wall emits the sweep's light, or blocks outdoor light and the light is outdoor |
| ClockwiseSweepPolygonExt.PatchedCases | src/ts/apps/clockwise_sweep_polygon_ext.ts:51-79 | outside a light sweep the patch is the identity; in a light sweep it is the application of the light decision (the identity when that decision has no modifications) |
| ClockwiseSweepPolygonExt.PatchedIdempotent | src/ts/apps/clockwise_sweep_polygon_ext.ts:68-79 | patching an edge that the identify phase already patched changes nothing more |
| ClockwiseSweepPolygonExt.IdentifyEdges | src/ts/apps/clockwise_sweep_polygon_ext.ts:51-60 | every edge of the sweep ends in its patched state; outside a light sweep no edge changes |
| ClockwiseSweepPolygonExt.IdentifyEdgesWrapper | src/ts/apps/clockwise_sweep_polygon_ext.ts:41-45 | after the host identifies the edges, every identified edge is patched |
| ClockwiseSweepPolygonExt.GetTestEdge | src/ts/apps/clockwise_sweep_polygon_ext.ts:68-79 | the test edge has the patched state and the same wall document. It is the edge itself exactly when nothing is modified, otherwise a fresh clone; the given edge is not written |
| ClockwiseSweepPolygonExt.TestEdgeInclusionWrapper | src/ts/apps/clockwise_sweep_polygon_ext.ts:28-32 | the host's test is evaluated on the patched state of the edge, with every other argument passed through |
| CanvasEdgesExt.WrappedCollisionTest | src/ts/apps/canvas_edges_ext.ts:36-45 | the caller's test sees the curtain-modified state. A clone is recorded for the edge exactly when the decision has modifications, and it carries that state and the edge's wall document |
| CanvasEdgesExt.SubstituteClones | src/ts/apps/canvas_edges_ext.ts:54-61 | each result edge is replaced by its recorded clone, if any. With distinct clones that are not in the result, the output has as many edges as the input |
| CanvasEdgesExt.QueryWithWrappedTest | src/ts/apps/canvas_edges_ext.ts:49 | the kept edges are the candidates whose seen state passes the test; clones are recorded exactly for modified candidates, are fresh, and are pairwise distinct |
| CanvasEdgesExt.GetEdgesWrapper | src/ts/apps/canvas_edges_ext.ts:24-64 | without a collision test every candidate is returned and nothing is cloned. With one, the accepted candidates are returned with modified ones replaced by their clones, and no accepted edge is lost |
| ApplyDefaultOutdoorLightSettings.DefaultSettingCallsShape | src/ts/apps/apply_default_outdoor_light_settings.ts:9-34 | without a mode nothing is set. Hidden is set, to true, exactly when a mode is present and the status is off. Manual mode never sets attenuation; global-darkness mode never sets luminosity or maximum darkness |
| ApplyDefaultOutdoorLightSettings.DefaultSettingsOutcome | src/ts/apps/apply_default_outdoor_light_settings.ts:9-34 | without a mode the light is unchanged. Dim status: bright 0, dim kept. Otherwise bright takes the old dim and dim becomes 0. Hidden becomes old hidden or status off. Manual: luminosity 0 and maximum darkness from the scene, or kept when the scene has none. Global darkness: attenuation 0 |
| ApplyDefaultOutdoorLightSettings.LightAccessor.constructor | src/ts/proxies/ambient_light_proxy.ts:5-35 | a light accessor starts with the given fields and an empty call log |
| ApplyDefaultOutdoorLightSettings.LightAccessor.GetDim | src/ts/proxies/ambient_light_proxy.ts:18 | returns the current dim radius |
| ApplyDefaultOutdoorLightSettings.LightAccessor.SetBright | src/ts/proxies/ambient_light_proxy.ts:10 | the bright radius takes the value, every other field is kept, and the call is logged |
| ApplyDefaultOutdoorLightSettings.LightAccessor.SetDim | src/ts/proxies/ambient_light_proxy.ts:14 | the dim radius takes the value, every other field is kept, and the call is logged |
| ApplyDefaultOutdoorLightSettings.LightAccessor.SetHidden | src/ts/proxies/ambient_light_proxy.ts:22 | the hidden state takes the value, every other field is kept, and the call is logged |
| ApplyDefaultOutdoorLightSettings.LightAccessor.SetLuminosity | src/ts/proxies/ambient_light_proxy.ts:26 | the luminosity takes the value, every other field is kept, and the call is logged |
| ApplyDefaultOutdoorLightSettings.LightAccessor.SetDarknessMax | src/ts/proxies/ambient_light_proxy.ts:30 | the maximum darkness takes the value, every other field is kept, and the call is logged |
| ApplyDefaultOutdoorLightSettings.LightAccessor.SetAttenuation | src/ts/proxies/ambient_light_proxy.ts:34 | the attenuation takes the value, every other field is kept, and the call is logged |
| ApplyDefaultOutdoorLightSettings.ApplyDefaultOutdoorLightSettings | src/ts/apps/apply_default_outdoor_light_settings.ts:9-34 | issues exactly the calls of the default-settings sequence for the scene's flags and the light's old dim; the light ends in the state that sequence produces |
| SceneExt.InitialOr | src/ts/data/scene_ext.ts:32-72 | a stored value is kept; a missing value takes the field's initial value |
| SceneExt.SceneFlagsOf | src/ts/data/scene_ext.ts:86-95 | the flags read from storage: the mode as stored (possibly none) and the status as stored, or bright when missing |
| SceneExt.FieldDefaults | src/ts/data/scene_ext.ts:32-72 | the mode field offers both modes, is nullable and starts empty; the status field offers the three statuses, is required and starts bright; a scene with no stored flags reads as no mode, status bright |
| SceneExt.RecordKeys | src/ts/data/scene_ext.ts:206-247 | a setter records its own key when the value differs from the document and otherwise leaves the payload as it was; other keys, position, rotation and angle are kept; the config and darkness sub-records are created only when needed |
| SceneExt.RecordIdempotent | src/ts/data/scene_ext.ts:206-247 | calling the same setter with the same value twice records the same payload as calling it once |
| SceneExt.RecordCommutes | src/ts/data/scene_ext.ts:206-247 | setters of different fields can be called in either order with the same recorded payload |
| SceneExt.RecordAllMatchesReplay | src/ts/data/scene_ext.ts:193-248 | when each field is set at most once, merging the recorded payload gives the light the applier would produce by setting the fields directly |
| SceneExt.RevertIsNotRecorded | src/ts/data/scene_ext.ts:206-212 | setting bright away from the document's value and back again leaves the first value recorded, whereas direct setting ends at the document's value |
| SceneExt.AmbientLightDocumentUpdateDataProxy.constructor | src/ts/data/scene_ext.ts:193-200 | a proxy starts on the given document with an empty payload |
| SceneExt.AmbientLightDocumentUpdateDataProxy.GetBright | src/ts/data/scene_ext.ts:193-200 | reads the document's bright radius |
| SceneExt.AmbientLightDocumentUpdateDataProxy.GetDim | src/ts/data/scene_ext.ts:193-200 | reads the document's dim radius |
| SceneExt.AmbientLightDocumentUpdateDataProxy.SetBright | src/ts/data/scene_ext.ts:206-212 | records bright in the payload, creating config when needed, unless it equals the document's value |
| SceneExt.AmbientLightDocumentUpdateDataProxy.SetDim | src/ts/data/scene_ext.ts:213-219 | records dim in the payload, creating config when needed, unless it equals the document's value |
| SceneExt.AmbientLightDocumentUpdateDataProxy.SetHidden | src/ts/data/scene_ext.ts:220-225 | records hidden in the payload unless it equals the document's value |
| SceneExt.AmbientLightDocumentUpdateDataProxy.SetLuminosity | src/ts/data/scene_ext.ts:226-232 | records luminosity in the payload, creating config when needed, unless it equals the document's value |
| SceneExt.AmbientLightDocumentUpdateDataProxy.SetDarknessMax | src/ts/data/scene_ext.ts:233-240 | records the maximum darkness, creating config and darkness when needed, unless it equals the document's value |
| SceneExt.AmbientLightDocumentUpdateDataProxy.SetAttenuation | src/ts/data/scene_ext.ts:241-247 | records attenuation in the payload, creating config when needed, unless it equals the document's value |
| SceneExt.AmbientLightDocumentUpdateDataProxy.Run | src/ts/data/scene_ext.ts:183-184 | running a sequence of setter calls on the proxy records the fold of those calls into the payload |
| SceneExt.SelectApplyOptions | src/ts/data/scene_ext.ts:168-176 | the maximum darkness is reapplied if and only if the change carries one and the scene is in manual global-light mode; the bright, dim and hidden settings are reapplied if and only if the change carries a status |
| SceneExt.UpdateScene | src/ts/data/scene_ext.ts:160-188 | a payload is issued for exactly the outdoor lights. Each payload is what the applier's calls record on a fresh proxy for that light's stored document, and the scene's lights end as those payloads merged in |
| SceneDocumentHook.DarknessMaxPayload | src/ts/data/scene_document_hook.ts:33-35 | the payload holds the new maximum darkness under config.darkness.max |
| SceneDocumentHook.DarknessMaxPayloadOnly | src/ts/data/scene_document_hook.ts:33-35 | merging that payload changes the light's maximum darkness and nothing else |
| SceneDocumentHook.UpdateScene | src/ts/data/scene_document_hook.ts:15-37 | without a changed maximum darkness, or outside manual global-light mode, nothing is updated. Otherwise every outdoor light, and no other, receives the new maximum darkness, and the scene's lights end as those payloads merged in |
| WallLightEmission.GetRayCenter | src/ts/apps/update_wall_light_emission.ts:89-93 | the center is the midpoint of the wall's two end points |
| WallLightEmission.RayCenterSymmetric | src/ts/apps/update_wall_light_emission.ts:89-93 | the center does not depend on which end point comes first |
| WallLightEmission.GetLightRadius | src/ts/apps/update_wall_light_emission.ts:102-117 | feet units use the stored radii (0 when missing). Ratio units give radii whose product with the grid distance is the wall length times the stored ratio, or the setting's default ratio when missing |
| WallLightEmission.LightRadiusScales | src/ts/apps/update_wall_light_emission.ts:110-116 | with ratio units, scaling the wall length by any factor scales both radii by it; feet radii do not depend on the wall length |
| WallLightEmission.GetRotationDegrees | src/ts/apps/update_wall_light_emission.ts:67-73 | left emission keeps the wall's angle; right emission turns it by exactly 180 degrees and stays in (0, 360] |
| WallLightEmission.RightTurnInvolution | src/ts/apps/update_wall_light_emission.ts:67-73 | for angles strictly between 0 and 360 other than 180, the right turn stays in [0, 360) and turning right twice gives back the angle |
| WallLightEmission.LightData | src/ts/apps/update_wall_light_emission.ts:30-50 | the light data puts the light at the wall's center with the wall's rotation, a 180-degree angle, the computed radii and a back reference to the wall, and leaves hidden alone |
| WallLightEmission.CompanionLight | src/ts/apps/update_wall_light_emission.ts:17-22 | the wall has a companion light if and only if it stores a non-empty light id that names a light of the canvas scene |
| WallLightEmission.PlanEmissionStates | src/ts/apps/update_wall_light_emission.ts:24-58 | no action exactly when there is no emission side and no companion; delete exactly when there is no side but a companion; update exactly when there is a side and a companion; create exactly when there is a side and no companion |
| WallLightEmission.UpdateWallLightEmission | src/ts/apps/update_wall_light_emission.ts:9-59 | a wall without id or parent fails with the module's message and changes nothing. Otherwise the planned action is carried out on the scene's lights and the wall's new light id (or none) is returned: a deletion removes exactly one light, an update keeps the set of light ids, and a creation adds exactly one light under the new id |
| WallLightEmission.UpdateLightIdempotent | src/ts/apps/update_wall_light_emission.ts:52-55 | updating the companion light twice with the same data leaves it as one update does |
| WallLightEmission.CreateAddsOne | src/ts/apps/update_wall_light_emission.ts:57-58 | creating under an unused id adds exactly one light |
| WallLightEmission.DeleteRemovesOne | src/ts/apps/update_wall_light_emission.ts:24-28 | deleting the companion light removes exactly one light |
| DoorControl.GetWidowsTexture | src/ts/ui/controls/door_control.ts:28-44 | a texture is returned if and only if the wall is a door, its light sense is NONE or PROXIMITY, and the icon for its state is cached; the open icon is returned exactly for an open door |
| DoorControl.GetTextureWrapper | src/ts/ui/controls/door_control.ts:20-26 | the curtain texture is shown whenever there is one; otherwise the host's texture is used |
| DoorControl.LightBlockingDoorsKeepHostTexture | src/ts/ui/controls/door_control.ts:28-35 | walls without a door, and doors whose light sense is LIMITED, NORMAL or DISTANCE, keep the host's texture |
| DoorControl.CurtainIconFollowsDoorState | src/ts/ui/controls/door_control.ts:37-43 | with both icons cached, a curtain door shows the open or closed icon according to its state; locked and closed look the same |
| ToolOrder.MaxOrderIsMaximum | src/ts/utils/get_tool_order_insertion_sequence.ts:17-30 | the first scan's last index is at least -1 and at least every tool's order, and it is -1 or the order of some tool |
| ToolOrder.TailScanIsMinimum | src/ts/utils/get_tool_order_insertion_sequence.ts:17-30 | with no tail tool the tail index is -1; otherwise it is the smallest order among the tail tools |
| ToolOrder.TailSentinelExample | src/ts/utils/get_tool_order_insertion_sequence.ts:26-28 | a tail tool at order -1 is forgotten by the scan: tail tools at -1 and then 5 give 5 |
| ToolOrder.LastBelowIsGreatestBelow | src/ts/utils/get_tool_order_insertion_sequence.ts:37-43 | the second scan's result is at least -1, is -1 or the order of some tool below the tail, and is at least every order strictly between -1 and the tail |
| ToolOrder.EmptyToolsInsertionInfo | src/ts/utils/get_tool_order_insertion_sequence.ts:32-34 | without tools the sequence starts at 0 in steps of 1 |
| ToolOrder.AppendCase | src/ts/utils/get_tool_order_insertion_sequence.ts:32-34 | without a tail tool, or with a tail order of 0, new tools come after every existing tool, in steps of 1, never below 0 |
| ToolOrder.TailCaseStep | src/ts/utils/get_tool_order_insertion_sequence.ts:37-46 | in the tail case the step is a tenth of the gap between the greatest order below the tail and the tail, positive exactly when the tail is above -1, and the start is one step above that order, raised to 0 if negative |
| ToolOrder.NthIncreasing | src/ts/utils/get_tool_order_insertion_sequence.ts:56-65 | with a positive step the generated values strictly increase |
| ToolOrder.BeforeTailTools | src/ts/utils/get_tool_order_insertion_sequence.ts:37-46 | when the start is not raised to 0, the first nine values lie strictly between every order below the tail and the tail, and the tenth reaches the tail |
| ToolOrder.GetInsertionInfo | src/ts/utils/get_tool_order_insertion_sequence.ts:16-47 | the two scans compute the insertion info that the fold functions define |
| ToolOrder.SequenceGenerator.constructor | src/ts/utils/get_tool_order_insertion_sequence.ts:56-65 | a new generator starts at the next index with the given step |
| ToolOrder.SequenceGenerator.Next | src/ts/utils/get_tool_order_insertion_sequence.ts:56-65 | the k-th call returns next index plus k steps and advances by one step |
| ToolOrder.GetToolOrderInsertionSequence | src/ts/utils/get_tool_order_insertion_sequence.ts:16-47 | returns a new generator positioned on the insertion info of the tools |
| SceneControlsUtils.GetToolOrderInsertionSequence | src/ts/utils/SceneControlsUtils.ts:7-38 | the second copy's scans produce a new generator on the same insertion info as the first copy |
| SceneControlsUtils.CreateSequenceGenerator | src/ts/utils/SceneControlsUtils.ts:40-49 | a new generator starts at the given next index with the given step |

## Left out

- Host code that is not part of this model: hook registration, localisation, the configuration dialogs, the scene-control tools and the data-model schema classes.
- Floating point: numbers are exact reals. This includes the ratio radius division and the tenth-of-a-gap step.
- Wall geometry: the wall's length and angle come from the host's ray and angle normalisation. They are parameters (`rayLength`, `rotationDegrees360` in [0, 360)).
- Persistence is asynchronous in the module. The model merges each update, creation or deletion into the scene's light table atomically, in the order the module issues them. Lights are read before any update is merged.
- The host's document creation becomes a parameter: the new id the host assigns (required not to be in use in the wall's scene), or none when it creates nothing, plus the defaults of the new light.
- The settings accessors for the default dim and bright emission ratios are not part of this model. Their values are the `EmissionSettings` parameter.
- The host's texture cache is the `loaded` set of icon paths. A texture is represented by its path.
- The host's edge query (the spatial lookup of edges in the bounds) is the `candidates` sequence, and the host calls the collision test once per candidate. The host's own test options (inner and outer bounds) are passed through and not interpreted.
- `EdgePatcher.Edge.Clone`: the host's `clone` is not part of this model. It is taken as a copy of the wall document, the senses and the thresholds.
- The sweep's light is identified by its document id as a string. A preview light without an id is not modelled, so a null id never matches a null stored light id.
- `SceneExt.UpdateScene`: the applier is called with an options object whose declared type does not match the setter interface it is used through. It is modelled as a parameter function from the options and the stored light to the setter calls made on the proxy.
- `SceneExt.AmbientLightDocumentUpdateDataProxy.GetBright` and `GetDim`: the base proxy class is not part of this model. They are taken to read the document's own values.
- `SceneExt.RecordAllMatchesReplay` requires each field to be set at most once. `SceneExt.RevertIsNotRecorded` shows that setting a field back to the document's value leaves the earlier value in the payload.
- The schema fields' validation of choices and nullability is not modelled. Only the field options and the defaults they imply are.
- `ToolOrder.TailScanIsMinimum` is stated only when no tail tool has order -1. The scan uses -1 as "not found", so a tail tool at -1 is forgotten (`ToolOrder.TailSentinelExample`).
- Tool orders are taken to be defined numbers. The order in which the host enumerates the tools is the sequence order.
- `ToolOrder.BeforeTailTools` is stated only when the start is not raised to 0. When it is raised, the values may reach the tail sooner.
- The module's flag records come in two versions in the repository. src/ts/data/outdoor_scene_flags.ts has no outdoor-light status field, and src/ts/data/wall_ext.ts has no light-emission or curtain flags, although the core reads all three. The model follows the scene flag schema of src/ts/data/scene_ext.ts (`SceneExt.SceneFlagsOf`) and the wall flags the core reads (`Documents.WallFlags`).
