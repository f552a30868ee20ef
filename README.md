# Quakespasm-Spiked renderer cores in Dafny

This project models five host-side parts of the Quakespasm-Spiked OpenGL renderer. The model covers their list, buffer and state-machine logic and proves what that logic guarantees.

- **Shadow lights** (`Quake/r_shadow.c`).
  - The registry of shadow-casting lights is a singly linked list with an id counter and at most one sun.
  - A character-level scanner reads the level's entity text and turns `_shadowsun` worldspawns and `_shadowlight` entities into lights.
  - Each frame, a pass decides which shadow maps to redraw.
  - The packer fills the fixed-size uniform block with the lights that were drawn.
  - Modules: `ShadowParse` (the scanner and key handling as pure functions), `ShadowLights` (the `Light` and `UniformBlock` classes, bounds, registry shapes) and `ShadowRegistry` (the `Shadows` class with the registry, the parse loop and the frame pass).
- **World surfaces** (`Quake/r_world.c`).
  - Marking the surfaces a light can see builds per-texture chains. It is driven by the PVS bit test and the `visframe` stamp.
  - Surfaces are triangulated as fans into the 4096-entry index batch.
  - The chain loop of `R_DrawTextureChains_GLSL` flushes that batch on every lightmap change.
  - Module: `World`.
- **Particles** (`Quake/r_part.c`).
  - The particle texture's alpha function.
  - The pool size taken from the command line.
  - The free and active lists, the spawners that move particles between them, the two kill loops of `CL_RunParticles`, and the decoding of the rocket-trail type.
  - Module: `Particles`.
- **Sprites** (`Quake/r_sprite.c`).
  - Frame selection, including group animation over time.
  - The bounded sprite batch with its flush and frame counters.
  - The scale and orientation dispatch of `R_DrawSpriteModel`.
  - Module: `Sprites`.
- **Vertex layout** (`Quake/gl_geometry.c`).
  - The attribute constructors and the usage mapping.
  - The three loops of `GL_CreateGeometry`: gathering, offsets and locations, then the shared stride.
  - Quad buffer sizing, upload and destruction.
  - Module: `Geometry`.

Code that changes state in place is modelled as classes. Their methods carry `modifies` clauses and loop invariants. These are the light registry, the uniform block, the texture chains and surfaces, the index batch, the particle pool, the sprite batch and the geometry record.

GL calls are not executed. Each class appends them to a ghost log of events or calls, and contracts state exactly which entries a method appends. Pure computations are functions, and lemmas prove their properties.

Floating-point geometry is passed in as function-valued parameters. This covers the view transform, `AngleVectors`, the distance used for culling, `Q_atof` and the tokenizer. Matrices are kept as the symbolic expression that built them.

The source is followed where it is surprising. Four examples:
- A key is compared with a known name over the key's own length, so `a` is read as `angle`.
- The spot flag of the entity parser is never reset, so it carries over into later light entities (`ShadowParse.SpotFlagLeaksIntoNextLight`).
- `GL_CreateGeometry` appends after any attributes already present. It sets `vertex_size` only from the new ones, while the stride covers them all.
- The particle count from `-particles` has no upper bound (see Findings).

## Model

| member | source | states |
|---|---|---|
| `ShadowParse.KeyMatchesIsPrefix` | Quake/r_shadow.c:519-554 | For NUL-free strings, `strncmp(key, name, keylen) == 0` holds exactly when the key is a prefix of the name, the empty key included. |
| `ShadowParse.DiffersAt` | Quake/r_shadow.c:519-554 | A key that differs from a name before the key's end does not match it. |
| `ShadowParse.Step` | Quake/r_shadow.c:601-679 | One turn of the scanning loop never moves backwards, ends inside the text, and leaves the saved field starts at or before the next character. |
| `ShadowParse.Classify` | Quake/r_shadow.c:653-661 | Reclassifying after a pair never turns a worldspawn into anything else and never makes a classified entity invalid again. |
| `ShadowParse.SkipIdle` | Quake/r_shadow.c:605-678 | Characters the current state does not react to produce no events and leave the state unchanged. |
| `ShadowParse.CommentSkipped` | Quake/r_shadow.c:606-610 | In the initial state, `//` starts a comment that lasts to the newline; braces inside it produce nothing. |
| `ShadowParse.SingleSlashIsNotComment` | Quake/r_shadow.c:607 | A `/` not followed by another `/` starts no comment. |
| `ShadowParse.OpenEntity` | Quake/r_shadow.c:611-613 | `{` in the initial state opens an entity. |
| `ShadowParse.CloseEntity` | Quake/r_shadow.c:625-629 | `}` in an entity produces exactly one end event carrying the entity's kind; the next entity starts out invalid. |
| `ShadowParse.BrushBlockSkipped` | Quake/r_shadow.c:621-624 | An inner `{` skips a brush block up to the first `}`, whatever it holds, quotes included. |
| `ShadowParse.QuotedKey` | Quake/r_shadow.c:617-620 | A quote in an entity opens the key, which runs to the next quote. |
| `ShadowParse.QuotedValue` | Quake/r_shadow.c:632-664 | After a key, the next quote opens the value; its closing quote reports the pair under the entity's reclassified kind. |
| `ShadowParse.ValueBody` | Quake/r_shadow.c:647-664 | The value runs from its opening quote to the next quote and is reported with its key. |
| `ShadowParse.NoBraceNoEvents` | Quake/r_shadow.c:606-615 | Text outside an entity with no `{` in it produces no events, whatever comments it holds. |
| `ShadowParse.FirstEntityIsWorldspawn` | Quake/r_shadow.c:599 | The first entity of a text that opens with `{` is read as the worldspawn. |
| `ShadowParse.HandleEntityKey` | Quake/r_shadow.c:510-559 | An empty key or an invalid entity changes nothing. A non-light entity never touches the light accumulators. A non-worldspawn entity never touches the sun settings. The spot flag is never cleared. |
| `ShadowParse.EndCall` | Quake/r_shadow.c:561-570 | Closing an entity asks for a sun exactly for a worldspawn with `_shadowsun`, at the accumulated angle. It asks for a spot light exactly for a `_shadowlight` light entity with the spot flag, with the accumulated origin, angles, cone and radius. |
| `ShadowParse.ResetAfterEntity` | Quake/r_shadow.c:572-577 | Closing an entity clears origin, angles, cone, radius, `shadowlight` and `worldsun`, and keeps the sun angle and the spot flag. |
| `ShadowParse.DispatchSingle` | Quake/r_shadow.c:627-663 | Dispatching one event is that event's own outcome. |
| `ShadowParse.DispatchAppend` | Quake/r_shadow.c:627-663 | Dispatching concatenated events composes the two outcomes. |
| `ShadowParse.ScanDispatchStep` | Quake/r_shadow.c:601-679 | The interleaved scan is one step's calls followed by those of the rest of the text. |
| `ShadowParse.ScanDispatchIsDispatch` | Quake/r_shadow.c:601-679 | Acting on each step's events as they come equals dispatching the whole event sequence afterwards. |
| `ShadowParse.ShortKeysMatchWorldspawnNames` | Quake/r_shadow.c:518-527 | On the worldspawn, `_s` and `_shadowsun` set the sun flag, `_shadowsunangle` sets the angle (it is not a prefix of `_shadowsun`), and `_shadowsunangles` changes nothing. |
| `ShadowParse.ShortKeysMatchLightNames` | Quake/r_shadow.c:529-556 | On a light, `a` is read as `angle`, `m` as `mangle`, `_sh` as `_shadowlight`, and `_shadowlightradius` reaches the radius branch. |
| `ShadowParse.SpotFlagLeaksIntoNextLight` | Quake/r_shadow.c:544-577 | Once a light had a cone key, a later `_shadowlight` entity without one is still added as a spot light, at zero origin and angles. |
| `ShadowParse.StartsShadowlightIsKeyPrefix` | Quake/r_shadow.c:659 | The reclassification test accepts exactly the keys that start with `_shadowlight`. |
| `ShadowParse.SunLevelLayout` | Quake/r_shadow.c:601-679 | Any text laid out as a three-line worldspawn with `_shadowsun` and `_shadowsunangle` scans to its three pairs and one end event. |
| `ShadowParse.SunLevelScan` | Quake/r_shadow.c:601-679 | The concrete sun level scans to those events. |
| `ShadowParse.SunLevelSetsUpOneSun` | Quake/r_shadow.c:561-578 | Whatever the accumulators held before, that level asks for exactly one sun, at the angles read from `_shadowsunangle`. |
| `ShadowParse.WorldspawnPair` | Quake/r_shadow.c:616-664 | A `"key" "value"` line in the worldspawn reports exactly that pair. |
| `ShadowParse.ClosingLine` | Quake/r_shadow.c:625-629 | A closing `}` line reports the end of the entity and nothing after it. |
| `ShadowLights.KindCode` | Quake/r_shadow.c:1119 | The stored light type is 0, 1 or 2 for sun, spot and point, and different kinds get different codes. |
| `ShadowLights.InternalAngles` | Quake/r_shadow.c:369-371 | (yaw, pitch, roll) is stored as (-pitch, yaw, roll). |
| `ShadowLights.ConsoleAnglesRoundTrip` | Quake/r_shadow.c:145-146 | The console readback of stored angles returns the triple the light was set up with. |
| `ShadowLights.Light.constructor` | Quake/r_shadow.c:468-470 | A `calloc`ed light: every field zero. |
| `ShadowLights.Light.Aim` | Quake/r_shadow.c:369-456 | Pointing a light sets its angles, normal and both matrices and nothing else. |
| `ShadowLights.RenderedOf` | Quake/r_shadow.c:1158-1162 | The rendered lights are a sub-list of the lights. |
| `ShadowLights.RenderedOfMembers` | Quake/r_shadow.c:1158-1162 | A light is among the rendered ones exactly when it is in the list with its flag set. |
| `ShadowLights.RenderedOfAppend` | Quake/r_shadow.c:1158-1162 | Walking one more light adds it exactly when its flag is set. |
| `ShadowLights.Selected` | Quake/r_shadow.c:1158-1162 | Selecting by flags yields a sub-list of the lights. |
| `ShadowLights.SelectedPrefix` | Quake/r_shadow.c:1158-1162 | One more light is selected exactly when its flag is set. |
| `ShadowLights.RenderedOfIsSelected` | Quake/r_shadow.c:1158-1162 | With the flags equal to the `rendered` fields, the selection is the rendered lights. |
| `ShadowLights.BindEvents` | Quake/r_shadow.c:1174-1181 | Slot k selects its unit, binds its texture and points sampler k at that unit, in slot order. |
| `ShadowLights.DeleteEvents` | Quake/r_shadow.c:686-693 | One texture deletion per light, in list order. |
| `ShadowLights.KindsOf` | Quake/r_shadow.c:1189-1198 | One kind per light. |
| `ShadowLights.KindsOfAt` | Quake/r_shadow.c:1189-1198 | Entry i of the kinds is the kind of light i. |
| `ShadowLights.SettingsOfAt` | Quake/r_shadow.c:464-481 | Entry i of the registry's settings is light i's kind, position, angles and radius. |
| `ShadowLights.SettingsKinds` | Quake/r_shadow.c:1189-1198 | The settings of the lights carry exactly the lights' kinds. |
| `ShadowLights.AimSunsAt` | Quake/r_shadow.c:369-371 | Re-aiming sets the angles of a sun entry and leaves every other entry as it was. |
| `ShadowLights.SpotRange` | Quake/r_shadow.c:462-466 | A spot light's range is never 0: a given non-zero `zfar` is kept and 0 becomes 300. |
| `ShadowLights.PrependedSettings` | Quake/r_shadow.c:298-303 | Linking a light in front of lights whose settings did not change puts its settings in front of theirs. |
| `ShadowLights.UnchangedSettings` | Quake/r_shadow.c:298-303 | Lights whose fields did not change keep the list's settings. |
| `ShadowLights.ReaimedSettings` | Quake/r_shadow.c:369-371 | When only the one sun's angles change, to `la`, the registry's settings are the old ones with the sun re-aimed along `la`. |
| `ShadowLights.RegisteredConcat` | Quake/r_shadow.c:561-570 | Registering two runs of entity calls is registering the first, then the second. |
| `ShadowLights.RegisterOneKeepsOneSun` | Quake/r_shadow.c:350-362 | No single sun or spot call makes a second sun: a sun call creates one only when there is none and otherwise re-aims it. |
| `ShadowLights.RegisteredKeepsOneSun` | Quake/r_shadow.c:350-362 | However many sun calls a level makes, the registry never holds two suns. |
| `ShadowLights.SunLevelRegistersOneSun` | Quake/r_shadow.c:348-371 | With suns enabled, the sun level registers exactly one light: a sun at the origin with radius 0, aimed along the `_shadowsunangle` triple converted to (-pitch, yaw, roll). With suns disabled it registers nothing. |
| `ShadowLights.Corners` | Quake/r_shadow.c:311-321 | A box has eight corners. |
| `ShadowLights.Axis` | Quake/r_shadow.c:333-341 | The coordinate `ax` of every point, in order. |
| `ShadowLights.LowBoundBrackets` | Quake/r_shadow.c:331-341 | The running minimum starting at `FLT_MAX` is at most every point and is either `FLT_MAX` or one of the points. |
| `ShadowLights.HighBoundBrackets` | Quake/r_shadow.c:331-341 | The running maximum starting at `-FLT_MAX` is at least every point and is either `-FLT_MAX` or one of the points. |
| `ShadowLights.BoundsAttained` | Quake/r_shadow.c:331-341 | With finite points, both bounds are attained by some point. |
| `ShadowLights.TruncateToInt` | Quake/r_shadow.c:1155 | `(int)x` rounds toward zero. |
| `ShadowLights.Warnings` | Quake/r_shadow.c:1113-1115 | n limit warnings in a row. |
| `ShadowLights.UniformBlock.constructor` | Quake/r_shadow.c:107-119 | An empty block of the given capacity, not yet created on the GPU. |
| `ShadowLights.UniformBlock.AddLight` | Quake/r_shadow.c:1111-1131 | A full block warns and changes nothing else. Otherwise the light's record (type, brighten, darken, bias, radius, cutoff 0.3, position, normal, matrix) and its slot (texture, unit base plus id) go at the next entry, and no other entry changes. |
| `ShadowLights.UniformBlock.Consider` | Quake/r_shadow.c:1158-1162 | A rendered light joins the packed lights or is dropped with one warning; any other light changes nothing. |
| `ShadowLights.UniformBlock.PackAll` | Quake/r_shadow.c:1156-1162 | From an empty block, the rendered lights are packed in list order as far as they fit, with one warning per dropped light. |
| `ShadowLights.UniformBlock.ConsiderAt` | Quake/r_shadow.c:1158-1162 | Light i extends the packing of the rendered lights before i to those up to i. |
| `ShadowLights.UniformBlock.Update` | Quake/r_shadow.c:1145-1167 | The buffer is created on first use. `use_shadow` is `(int)r_shadow_sun`. The rendered lights are repacked from 0 in list order up to the capacity, and the untouched entries keep their values. One warning per dropped light precedes one upload of the whole block. |
| `ShadowLights.UniformBlock.BindTextures` | Quake/r_shadow.c:1174-1181 | Binds exactly the packed slots, in order, each sampler pointed at its slot's unit. |
| `ShadowRegistry.StepPending` | Quake/r_shadow.c:601-679 | One step of the parse loop keeps the settings registered so far on course to what the whole text registers. |
| `ShadowRegistry.Shadows.DistinctLights` | Quake/r_shadow.c:298-303 | With ids counting down from the head, lights at different positions are different objects. |
| `ShadowRegistry.Shadows.OnlySun` | Quake/r_shadow.c:352-362 | The sun is the only light of kind sun in the list. |
| `ShadowRegistry.Shadows.constructor` | Quake/r_shadow.c:60-63 | An empty registry, no sun, counter 0, and the console defaults `r_shadow_sun` 1, `r_shadow_sundebug` 0, brighten 0.2 and darken 0.4. |
| `ShadowRegistry.Shadows.LinkLight` | Quake/r_shadow.c:298-303 | The light gets the counter as its id and becomes the list head, the rest of the list is unchanged, and the counter goes up by one. |
| `ShadowRegistry.Shadows.CreateFramebuffer` | Quake/r_shadow.c:251-279 | The light gets a new depth texture of its own size. |
| `ShadowRegistry.Shadows.ClearLights` | Quake/r_shadow.c:682-698 | Each light's texture is deleted in list order; then the list is empty, there is no sun and the counter is back at 0. |
| `ShadowRegistry.Shadows.ViewCorners` | Quake/r_shadow.c:323-329 | Eight transformed corners. |
| `ShadowRegistry.Shadows.WorldProjectionBounds` | Quake/r_shadow.c:308-346 | Per axis, the bounds are the folds from `FLT_MAX` and `-FLT_MAX` over the eight transformed corners. |
| `ShadowRegistry.Shadows.ProjectionBoundsTight` | Quake/r_shadow.c:331-345 | Every transformed corner lies within the bounds, and with finite coordinates each bound is attained by a corner. |
| `ShadowRegistry.Shadows.SunProjectionFor` | Quake/r_shadow.c:406-441 | The sun's ortho box spans the bounds seen along the light, with near and far from the bounds seen from the opposite direction. |
| `ShadowRegistry.Shadows.SetupSun` | Quake/r_shadow.c:348-460 | With `r_shadow_sun` at 0 nothing changes. Otherwise a sun at the origin is created and linked only when none exists, then aimed along the converted angles. The registry's settings change as `RegisterOne` says for the sun call. |
| `ShadowRegistry.Shadows.SetupSunOn` | Quake/r_shadow.c:352-459 | Past the cvar test: the old sun, or a fresh linked one, is aimed along the angles. The settings gain a new sun in front, or the existing sun alone is re-aimed. |
| `ShadowRegistry.Shadows.FirstSun` | Quake/r_shadow.c:352-459 | With no sun yet, exactly one sun is added at the head. |
| `ShadowRegistry.Shadows.CreateSun` | Quake/r_shadow.c:352-362 | A fresh enabled sun with the sun size and bias becomes the head with the next id and gets its depth texture. |
| `ShadowRegistry.Shadows.AimSun` | Quake/r_shadow.c:369-459 | The sun's angles, normal and matrices follow the angles (from the debug position once, then the origin). The debug override is cleared. No other light changes. |
| `ShadowRegistry.Shadows.NewSpotLight` | Quake/r_shadow.c:468-490 | A fresh enabled spot light with the spot size and bias, radius = range, angles converted, a perspective matrix, and `world_to_shadow_map` equal to `projview`. |
| `ShadowRegistry.Shadows.AddSpotLight` | Quake/r_shadow.c:462-497 | A zfar of 0 becomes 300. Exactly one new light, with those settings, becomes the head, and the sun is unchanged. |
| `ShadowRegistry.Shadows.SetAngleCommand` | Quake/r_shadow.c:137-156 | With fewer than three angles it changes nothing and replies with the sun's angles in console order, or that there is no sun. Otherwise it sets the sun up along the three numbers read. With `r_shadow_sun` at 0 it changes nothing and says nothing. With it on, the setup's console output is the reply and the readback returns the three numbers. |
| `ShadowRegistry.Shadows.HandleKey` | Quake/r_shadow.c:510-559 | The accumulators change as `HandleEntityKey` says. |
| `ShadowRegistry.Shadows.EndEntity` | Quake/r_shadow.c:561-578 | The call `EndCall` chooses is performed on the registry: the settings change by that spot light (origin, converted angles, range) or that sun call. Then the accumulators are reset. |
| `ShadowRegistry.Shadows.Perform` | Quake/r_shadow.c:563-570 | A spot call puts one spot light in front, at the call's origin, converted angles and range. A sun call creates or re-aims the one sun along its converted angles, and does nothing with `r_shadow_sun` at 0. |
| `ShadowRegistry.Shadows.ScanStep` | Quake/r_shadow.c:601-679 | One loop turn keeps the registry's settings on course to what the whole text registers. |
| `ShadowRegistry.Shadows.ScanChar` | Quake/r_shadow.c:602-678 | The switch computes exactly `Step`, and the registry's settings change by the calls its events dispatch. |
| `ShadowRegistry.Shadows.ScanText` | Quake/r_shadow.c:601-679 | The loop's effect on the accumulators and on the registry's settings is the interleaved scan of the whole text. |
| `ShadowRegistry.Shadows.ParseEntities` | Quake/r_shadow.c:580-680 | The accumulators, and the kind, position, angles and radius of every registered light, end up as dispatching the text's events says. |
| `ShadowRegistry.Shadows.NewMap` | Quake/r_shadow.c:700-706 | Starting from an empty registry with the sun settings cleared, the lights (kind, position, angles, radius, in list order) are exactly those the new text registers, and the ids match the list length. |
| `ShadowRegistry.Shadows.SunLevelLoaded` | Quake/r_shadow.c:700-706 | After the sun level is loaded with suns enabled, the one light is the sun, at the origin, aimed along the converted `_shadowsunangle`. |
| `ShadowRegistry.Shadows.RenderLight` | Quake/r_shadow.c:1085-1109 | A drawn light takes the console brighten and darken, is flagged rendered and becomes the last light rendered. |
| `ShadowRegistry.Shadows.Visit` | Quake/r_shadow.c:1187-1198 | A light is flagged rendered exactly when it is the sun with `r_shadow_sun` on, or a spot light within 1024 of the eye. A light not drawn keeps its brighten and darken, and nothing is logged for it. |
| `ShadowRegistry.Shadows.ShouldRenderAll` | Quake/r_shadow.c:1189-1198 | The render decision for each light. |
| `ShadowRegistry.Shadows.VisitNext` | Quake/r_shadow.c:1187-1198 | The drawn lights grow by this light exactly when it should be drawn. |
| `ShadowRegistry.Shadows.VisitAt` | Quake/r_shadow.c:1187-1198 | One loop turn extends the pass state to the next position. |
| `ShadowRegistry.Shadows.BrightenOf` | Quake/r_shadow.c:1085-1102 | The brighten value of each light. |
| `ShadowRegistry.Shadows.DarkenOf` | Quake/r_shadow.c:1085-1102 | The darken value of each light. |
| `ShadowRegistry.Shadows.RenderLights` | Quake/r_shadow.c:1187-1199 | Each light is flagged exactly when it should be drawn. Only those take the console values. The drawn ones are the rendered lights in list order, and the uniform block is untouched. |
| `ShadowRegistry.Shadows.PassDone` | Quake/r_shadow.c:1187-1199 | At the end of the loop every light has been decided. |
| `ShadowRegistry.Shadows.RenderShadowMap` | Quake/r_shadow.c:1183-1223 | The rendered lights' passes are drawn in order and the last one is remembered. When something was drawn outside the debug view, the uniform block is repacked and the viewport restored. The view's surfaces are marked last. |
| `ShadowRegistry.Shadows.Closing` | Quake/r_shadow.c:1201-1222 | The viewport is restored exactly when shadow maps were drawn outside the debug view; marking the view's surfaces always comes last. |
| `ShadowRegistry.Shadows.FinishFrame` | Quake/r_shadow.c:1201-1222 | The end of the pass emits the closing events and repacks only when needed. |
| `ShadowRegistry.Shadows.Close` | Quake/r_shadow.c:1206-1222 | Emits the closing events. |
| `ShadowRegistry.Shadows.Repack` | Quake/r_shadow.c:1202 | Only the uniform block changes, repacked from the rendered lights. |
| `World.Texture.constructor` | Quake/r_world.c:56-68 | A texture with both chains empty. |
| `World.Surface.constructor` | Quake/r_world.c:75-79 | A surface with the given texture, polygon, lightmap and flags, never stamped. |
| `World.Lightmap.constructor` | Quake/r_world.c:66-67 | A lightmap with an empty polygon chain. |
| `World.ChainSurface` | Quake/r_world.c:75-79 | The surface is pushed on the head of its texture's chain in the slot; the other slot and every other texture are unchanged. |
| `World.ClearChainSlot` | Quake/r_world.c:61-63 | The slot of every non-null texture is emptied and the other slot kept. |
| `World.ClearTextureChains` | Quake/r_world.c:56-68 | The slot of every non-null texture and every lightmap's polygon chain are emptied. |
| `World.NoVisShowsAll` | Quake/r_world.c:108-130 | With every PVS byte `0xff`, every leaf's bit is set. |
| `World.MarksMembers` | Quake/r_world.c:128-140 | A surface is among the marks exactly when a leaf whose bit is set marks it. |
| `World.FirstSeenMembers` | Quake/r_world.c:135-139 | Keeping each surface at its first sighting loses none and repeats none. |
| `World.FirstSeenConcat` | Quake/r_world.c:128-146 | Feeding two runs of marks is feeding the first, then the second. |
| `World.OnTextureMembers` | Quake/r_world.c:77-78 | A texture's chain holds exactly the chained surfaces of that texture. |
| `World.Added` | Quake/r_world.c:135-139 | Adding a surface keeps the earlier ones, adds at most one, and keeps the list free of repeats. |
| `World.OnTexture` | Quake/r_world.c:77-78 | A texture's surfaces are a sub-list of the chained ones. |
| `World.OnTextureAppend` | Quake/r_world.c:77-78 | Chaining one more surface extends exactly its texture's list. |
| `World.PushIsReverseAppend` | Quake/r_world.c:77-78 | Pushing on a chain lists the surfaces newest first. |
| `World.MarkedSurfaces` | Quake/r_world.c:124-146 | A surface is marked for a light exactly when a leaf whose bit is set marks it, and no surface is marked twice. |
| `World.SunMarksAll` | Quake/r_world.c:108-111 | For the sun, every surface of every leaf is marked. |
| `World.MarkedChain` | Quake/r_world.c:75-79 | Each texture's world chain holds each marked surface of the texture exactly once, newest first. |
| `World.OnTextureNoDup` | Quake/r_world.c:77-78 | A chain built from distinct surfaces has no repeats. |
| `World.FramesOf` | Quake/r_world.c:135-137 | The stamp of each surface. |
| `World.ChainsOf` | Quake/r_world.c:119-122 | The chains of each texture. |
| `World.Renderer.MarkOne` | Quake/r_world.c:134-139 | A surface not yet stamped in this pass is stamped and chained; one already stamped is skipped. |
| `World.Renderer.MarkLeaf` | Quake/r_world.c:132-140 | A leaf's surfaces are marked in order, each once. |
| `World.Renderer.StartPass` | Quake/r_world.c:119-124 | The world chains are emptied and the stamp advances, so nothing is yet marked in the pass. |
| `World.Renderer.MarkLeafAt` | Quake/r_world.c:130-145 | Leaf i's surfaces are marked exactly when bit i of the PVS is set. |
| `World.Renderer.MarkVisible` | Quake/r_world.c:127-146 | After the leaf loop, the chained surfaces are the first sightings of the visible leaves' marks. |
| `World.Renderer.MarkSurfacesForLightShadowMap` | Quake/r_world.c:101-147 | The sun uses the all-visible PVS and other lights the PVS of their leaf. The chains are cleared and the stamp advances. Exactly the surfaces of visible leaves are then stamped and chained, once each; every other surface keeps its stamp. |
| `World.NumTriangleIndices` | Quake/r_world.c:379-382 | `3 * (numedges - 2)` as an unsigned int: always below 2^32. |
| `World.Fan` | Quake/r_world.c:392-401 | The fan of an n-gon has 3(n - 2) indices for n > 2 and none otherwise. |
| `World.FanAt` | Quake/r_world.c:392-401 | Triangle i of the fan is (first, first + i + 1, first + i + 2). |
| `World.FanShape` | Quake/r_world.c:379-401 | The fan has as many indices as the count says, and every index names a vertex of the polygon. |
| `World.FansAppend` | Quake/r_world.c:392-401 | The fans of two runs of surfaces are the two runs of fans. |
| `World.FansSnoc` | Quake/r_world.c:392-401 | One more surface appends its fan. |
| `World.FansCons` | Quake/r_world.c:392-401 | The fans of a list are the first surface's fan, then the rest's. |
| `World.Draws` | Quake/r_world.c:429 | The index lists of a log's draw calls, in order: never more than the log has events. |
| `World.DrawsAppend` | Quake/r_world.c:429 | The draws of two logs are the two runs of draws. |
| `World.FansOf` | Quake/r_world.c:429 | The fans of each group. |
| `World.Cleared` | Quake/r_world.c:413-416 | Clearing drops the pending indices without drawing. |
| `World.SentEmpty` | Quake/r_world.c:425-432 | With nothing pending, what was sent is what was drawn. |
| `World.FlushedSends` | Quake/r_world.c:425-432 | A flush loses no index and leaves nothing pending. |
| `World.FlushedValid` | Quake/r_world.c:425-432 | A flush draws the pending surfaces' fans, non-empty and within a batch. |
| `World.BatchedSends` | Quake/r_world.c:442-453 | Batching a surface sends exactly its fan after what was sent before. |
| `World.BatchedValid` | Quake/r_world.c:442-453 | Batching a surface that fits keeps the pending count at most 4096 and every draw within a batch. |
| `World.TextureOn` | Quake/r_world.c:1287-1297 | The binds before a texture's first surface draw nothing. |
| `World.TextureOff` | Quake/r_world.c:1312-1313 | Switching the alpha test off draws nothing. |
| `World.NoDrawsDrawNothing` | Quake/r_world.c:1285-1313 | A log without draws has no draws. |
| `World.NoDrawsKeep` | Quake/r_world.c:1285-1313 | Binding a texture or a lightmap, or switching the alpha test, changes neither what was sent nor the batch invariant. |
| `World.SurfaceStepSends` | Quake/r_world.c:1299-1305 | One surface of a chain sends its fan after what was sent before. |
| `World.SurfaceStepValid` | Quake/r_world.c:1299-1305 | One surface of a chain keeps the batch and the draws within bounds. |
| `World.FlushedGrouped` | Quake/r_world.c:1299-1300 | Flushing draws the pending surfaces, all of one lightmap, as one group. |
| `World.SurfaceStepGrouped` | Quake/r_world.c:1299-1305 | A draw issued on a lightmap change holds the previous lightmap's surfaces; what stays pending uses the new one. |
| `World.ChainRunSends` | Quake/r_world.c:1285-1308 | A chain sends the fans of its surfaces, in order. |
| `World.ChainRunValid` | Quake/r_world.c:1285-1308 | A chain of surfaces that fit keeps the draws within bounds. |
| `World.ChainRunGrouped` | Quake/r_world.c:1285-1308 | Every draw a chain issues holds surfaces of one lightmap. |
| `World.DrawChainSends` | Quake/r_world.c:1281-1313 | A drawn texture sends the fans of its chain, in order, and leaves the batch empty. |
| `World.DrawChainValid` | Quake/r_world.c:1281-1313 | A drawn texture whose surfaces fit keeps the draws within bounds. |
| `World.DrawChainGrouped` | Quake/r_world.c:1281-1313 | Every draw of a texture holds surfaces of one lightmap. |
| `World.DrawChainEvents` | Quake/r_world.c:1285-1313 | A drawn texture binds its texture once, first. A fence texture turns the alpha test on right after and off last, and no other alpha-test change occurs. |
| `World.TexturePassAppends` | Quake/r_world.c:1265-1313 | One texture of the loop appends its chain's fans when it is drawn and nothing when it is skipped. |
| `World.DrawChainAppends` | Quake/r_world.c:1281-1313 | A drawn texture appends its chain's fans to what was drawn before. |
| `World.TexturesPassSends` | Quake/r_world.c:1263-1314 | The chain loop sends the fans of the surfaces it draws, in order, and leaves the batch empty. |
| `World.TexturesPassValid` | Quake/r_world.c:1263-1314 | The chain loop over surfaces that fit keeps the draws within bounds. |
| `World.TexturesPassGrouped` | Quake/r_world.c:1263-1314 | No draw of the chain loop mixes lightmaps. |
| `World.QuietlyExtendsTrans` | Quake/r_world.c:1285-1308 | Logs extended only by draws and lightmap binds compose. |
| `World.FlushedQuiet` | Quake/r_world.c:425-432 | A flush issues at most a draw. |
| `World.SurfaceStepQuiet` | Quake/r_world.c:1299-1305 | One surface issues only draws and lightmap binds. |
| `World.ChainRunQuiet` | Quake/r_world.c:1285-1308 | A chain issues only draws and lightmap binds. |
| `World.DrawnPrefix` | Quake/r_world.c:1263-1314 | The surfaces drawn for texture i are among those drawn for the whole table. |
| `World.ChainLoopDraws` | Quake/r_world.c:1263-1314 | The chain loop draws exactly the fans of the drawn textures' chains, in table and chain order, and leaves nothing pending. Each draw is non-empty, at most 4096 indices, and from one lightmap. |
| `World.Renderer.ClearBatch` | Quake/r_world.c:413-416 | The batch is emptied without drawing. |
| `World.Renderer.FlushBatch` | Quake/r_world.c:425-432 | A non-empty batch is drawn as one call; the batch is empty afterwards either way. |
| `World.Renderer.TriangleIndicesForSurf` | Quake/r_world.c:392-401 | The surface's fan is written at the given position and the rest of the buffer is unchanged. |
| `World.Renderer.BatchSurface` | Quake/r_world.c:442-453 | The batch is flushed first when the fan would overflow 4096; then the fan is appended. |
| `World.Renderer.OpenTexture` | Quake/r_world.c:1287-1297 | Binds the texture, and for a fence texture turns on the alpha test. |
| `World.Renderer.DrawSurface` | Quake/r_world.c:1299-1305 | Flushes on a lightmap change, binds the surface's lightmap and batches its fan. |
| `World.Renderer.DrawChainLoop` | Quake/r_world.c:1285-1308 | The chain loop of a drawn texture, from the binds at its first surface to its last surface. |
| `World.Renderer.DrawTexture` | Quake/r_world.c:1265-1313 | Skips a hole, an empty chain, or a tiled, untextured or turbulent head. Otherwise it clears the batch, walks the chain, flushes, and turns the alpha test off for a fence texture. |
| `World.Renderer.DrawTextureChains` | Quake/r_world.c:1263-1314 | The loop over the texture table has the effect `TexturesPass` gives, about which `ChainLoopDraws` states the draws. |
| `Particles.Radius` | Quake/r_part.c:58-61 | The squared distance from (16, 16), capped, is between 0 and 255. |
| `Particles.RadiusZero` | Quake/r_part.c:58-61 | Only the centre texel is at distance 0. |
| `Particles.TextureLookup` | Quake/r_part.c:53-65 | For non-negative sharpness the alpha is in [0, 255]. It is 255 at the centre when sharpness is at least 1, and never positive when sharpness is at most 0. |
| `Particles.LookupSymmetric` | Quake/r_part.c:53-65 | The circle is symmetric under reflecting either axis about 16 and under swapping the axes. |
| `Particles.LookupFades` | Quake/r_part.c:53-65 | A texel nearer the centre is never more transparent than one farther away; texels at squared distance 255 or more are transparent. |
| `Particles.ParticleCountAsWritten` | Quake/r_part.c:288-299 | The count as written is at least 512 (and is not bounded above). |
| `Particles.AsWrittenExceedsVertexArray` | Quake/r_part.c:288-299 | `-particles 200000` gives a pool larger than the `MAX_PARTICLES`-entry vertex array. |
| `Particles.ParticleCount` | Quake/r_part.c:288-299 | The count used: between 512 and `MAX_PARTICLES`, `MAX_PARTICLES` without the option, the argument itself when it lies in range, and otherwise either the count as written or `MAX_PARTICLES`. |
| `Particles.AliveAppend` | Quake/r_part.c:886-915 | The survivors and the expired particles of two runs are those of each run, in order. |
| `Particles.AliveDeadSplit` | Quake/r_part.c:886-915 | The kill pass splits a list: survivors are exactly the members not yet expired, the rest exactly the expired ones, and together they are the list. |
| `Particles.AliveDeadLast` | Quake/r_part.c:886-915 | The split of a list is that of its front plus its last particle on the right side. |
| `Particles.AliveNoDup` | Quake/r_part.c:886-915 | Survivors of a repeat-free list have no repeats. |
| `Particles.AllDead` | Quake/r_part.c:886-897 | A run of expired heads stays all expired when one more expired particle joins it. |
| `Particles.SeenDead` | Quake/r_part.c:904-913 | An expired next particle joins the expired ones. |
| `Particles.SeenAlive` | Quake/r_part.c:902-915 | A surviving next particle joins the survivors. |
| `Particles.NoDupRemove` | Quake/r_part.c:909-911 | Unlinking one particle takes exactly it out and keeps the list free of repeats. |
| `Particles.TrailStride` | Quake/r_part.c:773-779 | Types below 128 step 3 units and the others 1 unit, with slight blood (type 4, or 132 in its dense form) using 3 more. |
| `Particles.TrailCountCovers` | Quake/r_part.c:781-783 | The trail loop places the least number of particles whose steps cover the length, and none for a non-positive length. |
| `Particles.TracerTint` | Quake/r_part.c:825-827 | `(tracercount & 4) << 1` is 8 exactly for counts whose residue mod 8 is at least 4, else 0. |
| `Particles.TrailMadeStep` | Quake/r_part.c:792-858 | Placing the next trail particle extends the record of the particles placed with that particle's expiry, kind and colour. |
| `Particles.ListsInPool` | Quake/r_part.c:36 | Every particle on either list has a slot in the pool. |
| `Particles.PartitionKept` | Quake/r_part.c:36 | An operation that neither loses nor duplicates particles keeps the two lists a partition of the pool. |
| `Particles.ListsAppendFree` | Quake/r_part.c:397-398 | Threading one more particle on the free list keeps the lists well-formed. |
| `Particles.ListsPop` | Quake/r_part.c:787-790 | Moving the free head to the active head keeps the lists well-formed. |
| `Particles.ListsUnlink` | Quake/r_part.c:909-911 | Moving an active particle to the free head keeps the lists well-formed. |
| `Particles.KillFirstStep` | Quake/r_part.c:888-894 | One turn of the first kill loop moves the expired head to the free list. |
| `Particles.GoneStep` | Quake/r_part.c:888-894 | The removed heads stay all expired, in reverse on the free list. |
| `Particles.WalkStarts` | Quake/r_part.c:902 | The walk starts at a head that survived the first loop. |
| `Particles.UnlinkStep` | Quake/r_part.c:906-912 | The expired particle after the current one is unlinked and pushed on the free list. |
| `Particles.WalkLength` | Quake/r_part.c:991-997 | The active list never holds more than the pool, so each survivor has a vertex slot. |
| `Particles.VisitStep` | Quake/r_part.c:902-998 | After the current particle's vertex, the walk moves to a next particle that survived. |
| `Particles.WalkEnds` | Quake/r_part.c:902-998 | When the walk falls off the end, the active list is the survivors, and the expired ones are on the free list in reverse order. |
| `Particles.KillPassComposes` | Quake/r_part.c:886-915 | The two kill loops together keep the survivors of the whole list in order, move the expired ones to the free list, and preserve the partition. |
| `Particles.ParticlePool.constructor` | Quake/r_part.c:284-302 | A pool of `ParticleCount(arg)` particles, with both lists empty. |
| `Particles.ParticlePool.ClearParticles` | Quake/r_part.c:390-400 | Every particle is on the free list in index order, and the active list is empty. |
| `Particles.ParticlePool.Alloc` | Quake/r_part.c:785-790 | With the free list empty it returns -1 and changes nothing. Otherwise it pops the free head and pushes it on the active head, keeping the partition. |
| `Particles.ParticlePool.PoppedStep` | Quake/r_part.c:785-790 | One more pop extends the popped prefix by one. |
| `Particles.ParticlePool.Spawn` | Quake/r_part.c:501-537 | Allocates `min(count, free)` particles from the free head, newest first on the active list. Each gets the expiry, kind and colour the spawner chooses; the other particles are untouched. |
| `Particles.ParticlePool.SpawnOne` | Quake/r_part.c:506-530 | One turn of the spawner loop: allocate, then set the attributes. |
| `Particles.ParticlePool.Stamp` | Quake/r_part.c:515-530 | Sets the n-th particle's attributes and no other particle's. |
| `Particles.ParticlePool.EntityParticles` | Quake/r_part.c:328-383 | One explode particle per vertex normal (162), living 0.01 s, colour `0x6f`, as far as the free list lasts. |
| `Particles.ParticlePool.ParticleExplosion` | Quake/r_part.c:501-537 | 1024 particles living 5 s at `ramp1[0]`, odd ones `pt_explode` and even ones `pt_explode2`, as far as the free list lasts. |
| `Particles.ParticlePool.ParticleExplosion2` | Quake/r_part.c:544-570 | 512 blobs living 0.3 s, particle k coloured `colorStart + k % colorLength`. |
| `Particles.ParticlePool.BlobExplosion` | Quake/r_part.c:577-614 | 1024 particles, odd ones `pt_blob` coloured 66 + r%6, even ones `pt_blob2` coloured 150 + r%6, with the rolled lifetimes. |
| `Particles.ParticlePool.RunParticleEffect` | Quake/r_part.c:621-671 | A count of 1024 is an explosion; any other count makes slow-falling particles of the given colour band with the rolled lifetimes. |
| `Particles.ParticlePool.LavaSplash` | Quake/r_part.c:678-712 | A 32 by 32 grid of slow-falling particles coloured 224 + r%8. |
| `Particles.ParticlePool.TeleportSplash` | Quake/r_part.c:719-753 | An 8 by 8 by 14 grid of slow-falling particles coloured 7 + r%8. |
| `Particles.ParticlePool.RocketTrail` | Quake/r_part.c:762-863 | Places `min(ceil(len / step), free)` particles, with the step and type decoded from the trail type. Each particle gets its type's expiry, kind and colour. The tracer count advances by one per particle of types 3 and 5. |
| `Particles.ParticlePool.TrailStep` | Quake/r_part.c:781-862 | One turn of the trail loop uses up a step and either places a particle or stops on an empty free list. |
| `Particles.ParticlePool.TrailOne` | Quake/r_part.c:785-858 | One trail particle: allocate, then set the attributes. |
| `Particles.ParticlePool.TrailStamp` | Quake/r_part.c:792-858 | Sets a trail particle's expiry, kind and colour by its type's case (unknown types leave kind and colour stale) and counts tracers. |
| `Particles.ParticlePool.RunParticles` | Quake/r_part.c:872-1003 | The survivors stay active in their order, and the expired ones are pushed on the free list in reverse. The partition is kept. One vertex is written per survivor, and `frame_particles` equals their number. |
| `Particles.ParticlePool.KillHead` | Quake/r_part.c:886-897 | Expired heads go back to the free list until the head survives. |
| `Particles.ParticlePool.Walk` | Quake/r_part.c:899-998 | The second kill loop and the vertex writes cover the whole remaining list. |
| `Particles.ParticlePool.Visit` | Quake/r_part.c:902-998 | One turn: the expired particles after the current one are killed, then its vertex is written. |
| `Particles.ParticlePool.KillNext` | Quake/r_part.c:904-915 | While the next particle has expired it is unlinked onto the free list; afterwards the next particle survives. |
| `Sprites.Truncate` | Quake/r_sprite.c:237 | `(int)x` rounds toward zero. |
| `Sprites.TargetTime` | Quake/r_sprite.c:237 | The time within one cycle lies in [0, full) for non-negative times and in (-full, 0] for negative ones. |
| `Sprites.Window` | Quake/r_sprite.c:237 | Removing a whole number of cycles truncated toward zero leaves a time within one cycle. |
| `Sprites.SearchFrom` | Quake/r_sprite.c:239-243 | The search stops at the first interval above the target or at the last index, and is always a valid index. |
| `Sprites.FrameSlot` | Quake/r_sprite.c:216-220 | The table entry used is always a valid index. |
| `Sprites.GroupIndex` | Quake/r_sprite.c:239-243 | The loop computes the search. |
| `Sprites.GetEntryFrame` | Quake/r_sprite.c:222-246 | A single frame is itself; a group shows the frame the search picks for the time within its cycle. |
| `Sprites.GetSpriteFrame` | Quake/r_sprite.c:205-249 | Returns the frame `SelectedFrame` specifies. |
| `Sprites.OutOfRangeUsesFirst` | Quake/r_sprite.c:216-225 | An out-of-range frame number shows the same as frame 0, and an in-range single frame is shown as stored. |
| `Sprites.SearchIsWindow` | Quake/r_sprite.c:239-245 | With growing intervals and a time inside the cycle, the search finds exactly the frame whose window holds the time. |
| `Sprites.GroupShowsWindow` | Quake/r_sprite.c:226-245 | For non-negative times a group shows the frame whose window holds the cycle time. |
| `Sprites.TargetTimePeriodic` | Quake/r_sprite.c:237 | One more whole cycle leaves the cycle time unchanged. |
| `Sprites.GroupPeriodic` | Quake/r_sprite.c:226-245 | A group animation repeats with period equal to its last interval. |
| `Sprites.AttribOffset` | Quake/r_sprite.c:283-288 | Each attribute the flush binds lies inside the 22-float record. |
| `Sprites.VertexRoundTrip` | Quake/r_sprite.c:320-333 | The shader reads back what the batcher stored: the position with the scale in w, the up and right axes, the colour with alpha 1, the frame bounds (left, down, right, up) and `smax`, `tmax`. |
| `Sprites.Requests` | Quake/r_sprite.c:320 | One request per record. |
| `Sprites.RequestsAt` | Quake/r_sprite.c:320 | Request i is record i with the batch texture. |
| `Sprites.FlattenAppend` | Quake/r_sprite.c:290 | One more draw call adds its records. |
| `Sprites.FlushOf` | Quake/r_sprite.c:258-290 | A flush issues one draw call exactly when the batch is non-empty and has a texture, and none otherwise. |
| `Sprites.DrawableAppend` | Quake/r_sprite.c:258-261 | The drawable requests of two runs are those of each run. |
| `Sprites.DrawableBatch` | Quake/r_sprite.c:258-261 | A textured batch is drawable in full and an untextured one not at all. |
| `Sprites.FlushDraws` | Quake/r_sprite.c:254-310 | Flushing a batch draws exactly its drawable requests. |
| `Sprites.RequestsAppend` | Quake/r_sprite.c:320 | One more record adds one request. |
| `Sprites.CountIsFlatten` | Quake/r_sprite.c:307 | The sprite count of a run of draw calls is the number of sprites they draw. |
| `Sprites.DrawStep` | Quake/r_sprite.c:290 | A draw keeps the draw log equal to the drawable requests that left the batch. |
| `Sprites.BoundStep` | Quake/r_sprite.c:315-320 | Every draw call holds 1 to `MAX_SPRITES` records. |
| `Sprites.CountStep` | Quake/r_sprite.c:306-307 | One more draw call adds one batch and its records to the counters. |
| `Sprites.DropStep` | Quake/r_sprite.c:258-261 | A flush that draws nothing keeps the log consistent and the counters as they were. |
| `Sprites.IssueStep` | Quake/r_sprite.c:263-310 | A flush that draws adds one batch and its sprites to the counters. |
| `Sprites.ResetStep` | Quake/r_sprite.c:418-423 | Resetting the counters starts a new count at the end of the log. |
| `Sprites.SpriteBatch.constructor` | Quake/r_sprite.c:44-52 | An empty batch without a texture and zero counters. |
| `Sprites.SpriteBatch.FlushSprites` | Quake/r_sprite.c:254-310 | The batch is always left empty. Only a non-empty textured batch is drawn, adding one batch and its sprites to the counters. Every drawable sprite submitted so far has been drawn, in order, with its texture. |
| `Sprites.SpriteBatch.BatchSprite` | Quake/r_sprite.c:312-334 | The batch flushes first when the frame's texture differs or the batch is full, then adopts the frame's texture. The record is appended, leaving 1 to `MAX_SPRITES` records, all with the batch texture. |
| `Sprites.SpriteBatch.Append` | Quake/r_sprite.c:320-333 | One record is stored at the end of a batch with room; nothing is drawn. |
| `Sprites.SpriteBatch.PrintSpriteInfo` | Quake/r_sprite.c:418-423 | Both counters become 0 and the batch is unchanged. |
| `Sprites.SpriteBatch.DrawSpriteModel` | Quake/r_sprite.c:341-416 | An unknown orientation batches nothing. Otherwise exactly one sprite is submitted: the selected frame with the orientation's axes, the scale `netscale/16` and the colour `colormod/32`. |
| `Sprites.Axes` | Quake/r_sprite.c:355-401 | Only an unknown orientation gives no axes. The upright modes use the world up axis, and the facing mode's right axis is horizontal. |
| `Sprites.NoRollIsParallel` | Quake/r_sprite.c:377-398 | With no roll, the roll-oriented mode draws like the view-parallel mode. |
| `Sprites.FacingRightPerpendicular` | Quake/r_sprite.c:364-376 | The facing-upright right axis is perpendicular to the horizontal forward direction. |
| `Sprites.SpriteScale` | Quake/r_sprite.c:407-410 | The scale is `netscale / 16` in both branches (16 gives 1), and positive exactly for positive scale bytes. |
| `Sprites.ColorOf` | Quake/r_sprite.c:414 | Each colour component is the modulation byte over 32. |
| `Geometry.ConstructorsAreFloats` | Quake/gl_geometry.c:5-27 | The three constructors give zeroed `GL_FLOAT` attributes that do not end a list: position of size 3, texture coordinates of size 2, normal of size 3. |
| `Geometry.ConvertGLUsage` | Quake/gl_geometry.c:29-36 | Every geometry type maps to one of the three GL usages. |
| `Geometry.UsageInjective` | Quake/gl_geometry.c:29-36 | Different types get different usages. |
| `Geometry.GLTypeSize` | Quake/gl_geometry.c:38-40 | Every data type is counted as 4 bytes. |
| `Geometry.Listed` | Quake/gl_geometry.c:53-58 | The attributes read are a prefix of the list, none of them an end marker, stopping at the first end marker. |
| `Geometry.ListedStops` | Quake/gl_geometry.c:54 | In a terminated list, reading stops inside the list. |
| `Geometry.SizeSumAppend` | Quake/gl_geometry.c:55 | One more attribute adds its size to the vertex size. |
| `Geometry.Laid` | Quake/gl_geometry.c:60-78 | Laying out keeps the number of attributes. |
| `Geometry.LaidKeeps` | Quake/gl_geometry.c:60-65 | Layout keeps each attribute's kind, data type and size, and sets its location to its index. |
| `Geometry.LaidPacked` | Quake/gl_geometry.c:60-78 | The first offset is 0, each offset is the previous one plus the previous size times 4, and the last attribute ends at the stride. |
| `Geometry.SizeSumGrows` | Quake/gl_geometry.c:60-65 | The attributes before j take at least those before i plus attribute i. |
| `Geometry.LaidDisjoint` | Quake/gl_geometry.c:60-78 | No two placed attributes overlap, and each lies inside the record. |
| `Geometry.StandardLayout` | Quake/gl_geometry.c:5-65 | Position, texture coordinates and normal lay out as a 32-byte record at offsets 0, 12 and 20, in locations 0, 1 and 2. |
| `Geometry.Setups` | Quake/gl_geometry.c:74-78 | Two setup calls per attribute. |
| `Geometry.SetupsAppend` | Quake/gl_geometry.c:74-78 | One more attribute appends its two calls. |
| `Geometry.SetupsAt` | Quake/gl_geometry.c:42-45 | Attribute i is enabled at its location and described with its size, type, stride and offset. |
| `Geometry.Allocated` | Quake/gl_geometry.c:98-99 | An allocation yields a block exactly when it succeeds, of the requested byte size. |
| `Geometry.VertexFits` | Quake/gl_geometry.c:96 | Every component of every corner of every quad lies inside the vertex array. |
| `Geometry.IndexFits` | Quake/gl_geometry.c:97 | Every index of every quad lies inside the index array. |
| `Geometry.WithOffsets` | Quake/gl_geometry.c:60-65 | The offsets pass keeps the number of attributes. |
| `Geometry.WithStride` | Quake/gl_geometry.c:74-77 | The stride pass keeps the number of attributes. |
| `Geometry.Relaid` | Quake/gl_geometry.c:60-78 | The offsets pass followed by the stride pass with the record size is the layout. |
| `Geometry.FreshStride` | Quake/gl_geometry.c:48-78 | For a new geometry, the stride is the vertex size in bytes. |
| `Geometry.Geometry.constructor` | Quake/gl_geometry.c:47 | A zeroed geometry of the given type. |
| `Geometry.Geometry.CreateGeometry` | Quake/gl_geometry.c:47-84 | The attributes up to the end marker are appended after the existing ones and all are laid out; `vertex_size` is the new attributes' total. The ids are recorded, the VAO and VBO are bound around one enable call and one attribute-format call per attribute, and it returns true. |
| `Geometry.Geometry.Gather` | Quake/gl_geometry.c:53-58 | The first loop appends the listed attributes and totals their sizes. |
| `Geometry.Geometry.PlaceOffsets` | Quake/gl_geometry.c:60-65 | The second loop gives each attribute its prefix-sum offset and its index as location, and returns the record size. |
| `Geometry.Geometry.ApplyStride` | Quake/gl_geometry.c:74-78 | The third loop gives every attribute the shared stride and issues its setup calls, in order. |
| `Geometry.Geometry.AllocateQuads` | Quake/gl_geometry.c:86-102 | The old arrays are released first. The sizes become `num_quads * 4 * vertex_size` floats and `num_quads * 6` indices. It returns true exactly when both allocations succeed. |
| `Geometry.Geometry.SendGeometry` | Quake/gl_geometry.c:104-118 | Binds and uploads the vertex then the index array with their byte sizes and the geometry's usage, and returns true. |
| `Geometry.Geometry.DestroyGeometry` | Quake/gl_geometry.c:120-126 | Deletes both buffers and the vertex array, then releases whichever arrays are set. |

## Left out

- GL and driver work is not executed: shaders, framebuffer completeness, texture parameters, viewport sizes, buffer contents and state toggles. Each is an entry in a ghost log, and only its order and arguments are modelled.
- Floating-point work is abstracted: matrix construction, `AngleVectors`, `VectorLength`, the view transform and the cull distance. They are function parameters, and matrices are symbolic.
- `Q_atof`, `Cmd_TokenizeString` and `Q_atoi` are function parameters, because their source is not part of this model.
- The headers `glquake.h` and `r_shadow.h` are not part of this model. So `MAX_FRAME_SHADOWS` and `SHADOW_MAP_TEXTURE_UNIT` are constructor parameters, and the attribute array of a geometry is an unbounded sequence.
- ShadowRegistry.Shadows.CreateFramebuffer: the framebuffer-incomplete warning path is not modelled, because its outcome depends on the driver.
- ShadowRegistry.Shadows.SetupSun: its console prints and the lazy load of the random texture are reduced to one log entry.
- ShadowRegistry.Shadows.Perform relates a light to its call through the light's kind, position, angles and radius. The spot's cone, both matrices, the normal and the shadow-map size are not part of that relation. ShadowRegistry.Shadows.AddSpotLight and ShadowRegistry.Shadows.SetupSun state them for a single call.
- ShadowRegistry.Shadows.EndEntity: the same four settings only, for the same reason.
- ShadowRegistry.Shadows.ScanChar: the same four settings only.
- ShadowRegistry.Shadows.ScanStep: the same four settings only.
- ShadowRegistry.Shadows.ScanText: the same four settings only.
- ShadowRegistry.Shadows.ParseEntities: the same four settings only.
- ShadowRegistry.Shadows.NewMap: the same four settings only.
- ShadowRegistry.StepPending: the same four settings only.
- ShadowRegistry.Shadows.RenderShadowMap: the entity and alias-model passes, the viewport arithmetic and the scale clamp are summarised as events. Only the decision of which lights are drawn, and in what order, is modelled.
- The uniform block's log is kept apart from the registry's, so the interleaving of the two logs within a frame is not recorded.
- `R_StoreEfrags` (static entities in visible leaves), the fullbright and texture-animation binds, and the GL setup around the chain loop are left out of `r_world.c`.
- World.Renderer.BatchSurface requires the surface's fan to fit in the 4096-entry batch and its polygon to have at least two edges. The source does not check this and relies on the map loader. A larger polygon would overflow `vbo_indices`, and that overflow is not modelled.
- World.Renderer.DrawSurface requires the same of its surface, for the same reason.
- World.Renderer.DrawChainLoop requires the same of every surface in the chain.
- World.Renderer.DrawTexture requires the same of every surface in a chain it draws.
- World.Renderer.DrawTextureChains requires the same of every surface it draws.
- `R_BackFaceCull`, `R_MarkSurfaces` and the other texture-chain draw paths of `r_world.c` are not part of the named core.
- Particles.ParticlePool.RunParticles: particle physics (velocity, gravity, ramps), the scale, colour and alpha of each vertex, and `R_DrawParticles` are left out. The vertex array records which particle each entry belongs to.
- Random offsets, `rand()` draws and trigonometry in the spawners are left out. The values `rand()` feeds into lifetimes and colours are parameters `lifeRoll`, `tintRoll` and `roll`.
- Particle positions and velocities are not modelled.
- Particles.ParticlePool.RocketTrail: the trail length is a real. Float rounding of `len -= dec` is not modelled.
- Sprites.TargetTime: single-precision arithmetic is not modelled; the cycle time is computed over the reals.
- Sprites.SpriteBatch.DrawSpriteModel: the polygon offset for oriented sprites and the `SDL_assert` are left out. The orientation vectors are parameters computed outside the model. The source never writes the fourth components of the up and right axes, so they keep whatever the slot held; the model writes 0 there.
- Sprites.SpriteBatch.DrawSpriteModel: the model assumes `currententity` is the entity being drawn, as every caller sets it.
- Sprite loading is not modelled. Its guarantees are that a sprite has at least one frame and that a group has as many positive intervals as frames.
- Sprites.GetSpriteFrame requires those loader guarantees. The source assumes them too.
- Sprites.GetEntryFrame requires them of the one entry it reads.
- Sprites.SpriteBatch.DrawSpriteModel requires them, as well as a three-component colour modulation.
- Sprites.GroupShowsWindow additionally requires increasing intervals. The loader accumulates them that way, but the source does not check it.
- `R_InitSprites` and the sprite VBO setup are left out.
- Geometry.Geometry.CreateGeometry: the `type` argument is unused by the source and never stored. The constructor models the caller setting the type.
- GL object names are parameters of `Geometry.Geometry.CreateGeometry`, and `size_t` wrap-around in sizes is not modelled.
- Geometry.Geometry.DestroyGeometry leaves the freed arrays referenced, as the source does. The model keeps the fields unchanged, so a second destroy would log a second release.
- Geometry.ConvertGLUsage: the default branch's assertion cannot be reached with three geometry types and is not modelled.
- Particles.ParticlePool.ParticleExplosion2 requires a non-zero `colorLength`. The source would divide by zero otherwise.

## Findings

| source | as written | input that shows it | evidently intended | confidence | as-written member | corrected member |
|---|---|---|---|---|---|---|
| Quake/r_part.c:288-299 | `-particles N` sets the pool size to `max(N, 512)` with no upper bound. `CL_RunParticles` writes one entry of `part_verts`, which has `MAX_PARTICLES` entries (line 135), per surviving particle (lines 991-997). | `-particles 200000` with more than 102400 live particles | the pool size clamped to `[512, MAX_PARTICLES]`, so that every survivor has a vertex slot | not executed | `Particles.AsWrittenExceedsVertexArray` | `Particles.ParticleCount` |
