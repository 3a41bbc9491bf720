# Voxel audio occlusion and sound registry, modelled in Dafny

This project models the core of a Unity audio plugin that drives FMOD events.
It has two parts.

**Voxel occlusion.** A background job flood-fills a voxel grid from the listener's
voxel. It writes two per-voxel buffers in place:
- a `ushort` path distance whose sentinel `0xFFFF` means "unreached";
- a "last direct voxel" index whose sentinel `-1` means "none".

Readers sample these buffers to estimate how occluded a sound is. The job uses a
breadth-first search over a fixed ring buffer of 524288 voxel indices. It moves
to the 26 Moore neighbours. It skips voxels within one voxel of a grid face. It
marks *indirection points*, voxels whose straight-line "air distance" to the
listener is shorter than the path found. Two variants exist:
- `AudioOcclusion` is write-once: only unreached neighbours are written;
- `AudioTracer` is label-correcting: a neighbour is rewritten whenever its
  distance strictly improves.

Both keep a pair of result buffers (a *flip-flop*). The job writes one buffer
while readers read the other, and the two are swapped when the job completes.

**Sound registry.** `AudioManager.PlaySound` creates sound instances and
registers them under increasing ids. The FMOD event callback moves an instance
through its lifecycle and unregisters it: `pendingCreation`, `pendingPlay`,
`playing`, `pendingDestroy`, `destroyed`. Users hold an `AudioInstanceRef`,
which is valid only while the instance keeps the id the reference captured.

Around these sit:
- the surface registry (acoustic properties per surface type, material and collider);
- the effect flags;
- the settings: meters-to-voxel-units conversion, the bus registry, global pause and stop-all;
- the merge of an asset's default custom props.

The model is organised as follows:
- Modules follow the source files.
- `VoxelGrid` holds the grid arithmetic both fills share. `SearchQueue` holds the ring buffer.
- The fills are methods over `array<u16>` / `array<int>`. They carry loop invariants and ghost witnesses.
- The static scheduler state of each fill is a `Scheduler` class.
- The surface registry, the sound registry, the settings asset and the reference asset are classes whose methods update their fields.
- Pure lookups and predicates are functions, with lemmas for the properties the source relies on.

The following become parameters:
- The voxel provider's neighbour table, with the unit steps it encodes as a ghost witness.
- The closest-air-voxel search.
- FMOD's answers: event handles and `getChannelGroup`.
- Unity's `Transform.InverseTransformPoint`.
- The scene search for a listener.

## Model

| member | source | states |
|---|---|---|
| VoxelGrid.Wrap16 | Scripts/AudioOcclusion.cs:365 | the `(ushort)` cast: identity on `[0, 2^16)`, and in general congruent to its argument modulo 2^16 |
| VoxelGrid.EncodeInRange | Scripts/AudioOcclusion.cs:287-290 | the flat index `x*countYZ + y*countZ + z` of an in-grid coordinate lies in `[0, countXYZ)` |
| VoxelGrid.Decode | Scripts/AudioOcclusion.cs:287-290 | dividing out a flat index in range gives an in-grid coordinate that encodes back to it |
| VoxelGrid.DecodeEncode | Scripts/AudioOcclusion.cs:287-290 | decoding undoes encoding, so the flat index is a bijection between grid coordinates and `[0, countXYZ)` |
| VoxelGrid.EncodeAdd | Scripts/AudioOcclusion.cs:359 | the encoding is additive: a coordinate step is the fixed flat offset of the neighbour table |
| VoxelGrid.NeighbourInRange | Scripts/AudioOcclusion.cs:313-321 | for a voxel that passes the margin test, every `voxI + voxDirs[i]` is inside the grid, differs from `voxI`, and is the voxel one unit step away |
| VoxelGrid.Sort3 | Scripts/AudioOcclusion.cs:332-343 | the three conditional swaps leave `ix >= iy >= iz`, a permutation of the input |
| VoxelGrid.SortedTriplesUnique | Scripts/AudioOcclusion.cs:332-343 | two descending triples with the same multiset are equal, so the sort's result is determined by the multiset |
| VoxelGrid.AirDisSymmetric | Scripts/AudioOcclusion.cs:328-345 | the air distance `5*max + 2*(mid+min)` depends only on the multiset `{abs dx, abs dy, abs dz}` |
| VoxelGrid.AirDisOfUnitStep | Scripts/AudioOcclusion.cs:345 | one unit step has air distance 5, 7 or 9 for a face, edge or corner neighbour |
| VoxelGrid.SortedSum | Scripts/AudioOcclusion.cs:332-343 | the sort keeps the sum of the three values, its largest is at least each of them, and its smallest is one of them |
| VoxelGrid.AirDisBounds | Scripts/AudioOcclusion.cs:328-345 | the air distance is at least 5 times each axis offset and at most 5 times their sum, and is 0 exactly for the listener's own voxel |
| VoxelGrid.IsIndirection | Scripts/AudioOcclusion.cs:324-354 | an indirection point has no direct voxel yet, a positive path distance, and an air distance strictly shorter than it |
| VoxelGrid.Enqueueable | Scripts/AudioOcclusion.cs:367-375 | the listener voxel is always queued; any other queued voxel is within the hearing radius and not solid |
| VoxelGrid.Outgoing | Scripts/AudioOcclusion.cs:324-354 | the spreading distance and outgoing direct voxel of a dequeued voxel, as the indirection test computes them |
| VoxelGrid.IndirectionEffect | Scripts/AudioOcclusion.cs:324-354 | a voxel is an indirection point exactly when it has no direct voxel and its air distance is below its path distance. Then only the local distance gains the penalty and the voxel becomes the direct voxel; otherwise both are passed on unchanged |
| VoxelGrid.ListenerIsDirect | Scripts/AudioOcclusion.cs:292 | the listener voxel, at distance 0, is never an indirection point and spreads with distance 0 |
| SearchQueue.SlotsDistinct | Scripts/AudioOcclusion.cs:294 | distinct positions of a ring of fewer than `_searchQueueSize` entries are distinct slots |
| SearchQueue.Enqueue | Scripts/AudioOcclusion.cs:385-388 | pushing at the tail of a non-full ring appends the index to the pending sequence and adds one to the count |
| SearchQueue.Dequeue | Scripts/AudioOcclusion.cs:306-309 | popping from a non-empty ring yields the oldest pending index and drops it (FIFO) |
| AudioOcclusion.UnreachedCountUpdate | Scripts/AudioOcclusion.cs:360-366 | writing a reached distance over the sentinel lowers the number of unreached voxels by one, which bounds the total number of enqueues |
| AudioOcclusion.KeepsReachedTrans | Scripts/AudioOcclusion.cs:359-365 | write-once composes: two runs of writes that keep every reached entry make one |
| AudioOcclusion.FirstReachedKeeps | Scripts/AudioOcclusion.cs:356-359 | under write-once, neighbours already reached stay reached, so reaching the next one extends the reached prefix of the 26 |
| AudioOcclusion.ClearBuffers | Scripts/AudioOcclusion.cs:274-276 | after the memsets every distance is `0xFFFF` and every direct index is `-1` |
| AudioOcclusion.Seed | Scripts/AudioOcclusion.cs:274-295 | after clearing, the listener voxel has distance 0 and no direct voxel, every other voxel is still unreached (0xFFFF, -1), and the listener is the sole queue entry (head 0, count 1); the fill invariant holds |
| AudioOcclusion.WriteNeighbour | Scripts/AudioOcclusion.cs:359-366 | an unreached neighbour `u + voxDirs[k]` gets `u`'s spreading distance plus the step cost and `u`'s outgoing direct voxel. Nothing else changes, and the invariant and one fewer unreached voxel follow |
| AudioOcclusion.Visit | Scripts/AudioOcclusion.cs:357-389 | visiting neighbour `k` is write-once: every voxel reached before keeps its distance and its direct voxel, the dequeued voxel among them. It keeps the invariant, and adds at most the newly reached voxels to the queue |
| AudioOcclusion.Spread | Scripts/AudioOcclusion.cs:357-389 | after the 26 visits, unless the queue filled, all neighbours of the dequeued voxel are reached. Every voxel reached before keeps its distance and direct voxel (write-once), and the invariant and the queue's facts hold |
| AudioOcclusion.Admit | Scripts/AudioOcclusion.cs:367-388 | a written neighbour is enqueued unless it is beyond the hearing radius or of a solid type; a full queue (the editor guard) adds nothing and stops the spreading |
| AudioOcclusion.Step | Scripts/AudioOcclusion.cs:298-390 | one dequeue: margin voxels are skipped, others spread to their neighbours. Every voxel reached before keeps its distance and direct voxel (write-once). The invariant is kept, and each pass reaches a new voxel or shrinks the queue, which gives termination |
| AudioOcclusion.Execute | Scripts/AudioOcclusion.cs:272-395 | the job's result: the listener holds 0. Every other reached voxel holds a dequeued interior neighbour's spreading distance plus the step cost, and that neighbour's direct voxel. Every direct index names an indirection point. Unless the queue overflowed, every reached voxel the fill may spread from has all 26 neighbours reached. A grid that fits in the queue never overflows |
| AudioOcclusion.FlipFlop.constructor | Scripts/AudioOcclusion.cs:162-171 | a new buffer pair of the grid's size, all distances `0xFFFF` and all direct indices `-1` |
| AudioOcclusion.Scheduler.GetNextFlip | Scripts/AudioOcclusion.cs:143-147 | toggles `flipped` and answers the buffer it now names |
| AudioOcclusion.Scheduler.PickFlips | Scripts/AudioOcclusion.cs:105-106 | two calls of `GetNextFlip` leave `flipped` as it was, with the read and write buffers the two different buffers |
| AudioOcclusion.Scheduler.OnSetupVoxelSystem | Scripts/AudioOcclusion.cs:99-125 | a no-op once set up. Otherwise both buffers are fresh and blank, `readFlip != writeFlip`, the job takes the grid, and the system is valid with nothing computed |
| AudioOcclusion.Scheduler.RunOcclusionJob | Scripts/AudioOcclusion.cs:394 | a scheduled job run to its end leaves its finished fill in the buffer it writes and sets `isCompleted` |
| AudioOcclusion.Scheduler.TryCompleteOcclusionJob | Scripts/AudioOcclusion.cs:216-229 | true without change when no job is active; false without change when not forced and not completed. Otherwise the buffer just written becomes `readFlip` and the other becomes `writeFlip`, the job flag clears and the occlusion is marked computed. The read buffer then holds the job's finished fill |
| AudioOcclusion.Scheduler.CompleteJob | Scripts/AudioOcclusion.cs:219-227 | the completing branch: the buffers are swapped, the job is waited for, and the written fill becomes the readable one |
| AudioOcclusion.Scheduler.OnGlobalReadAccessStart | Scripts/AudioOcclusion.cs:183-214 | nothing changes while a job is still running, or when the system is invalid or no listener voxel is found. Otherwise a job is started on the write buffer from that voxel with the hearing radius cast to `ushort` |
| AudioOcclusion.Scheduler.StartJob | Scripts/AudioOcclusion.cs:198-210 | the job is pointed at the write buffer with the listener voxel and radii, and both job flags are set |
| AudioOcclusion.Scheduler.OnGlobalReadAccessStop | Scripts/AudioOcclusion.cs:231-238 | the grid copy job is no longer active and nothing else changes |
| AudioOcclusion.Scheduler.OnClearVoxelSystem | Scripts/AudioOcclusion.cs:83-97 | corrected order: a no-op when not set up. Otherwise any job is completed, both buffers are dropped, and the system ends invalid with nothing computed |
| AudioOcclusion.ForceComplete | Scripts/AudioOcclusion.cs:216-229 | forced completion clears the job flag and sets the computed flag exactly when it was set or a job was running |
| AudioOcclusion.ClearAsWrittenLeavesComputed | Scripts/AudioOcclusion.cs:83-97 | as written, clearing while a job runs leaves the system invalid but `hasComputedOcclusion` true |
| AudioOcclusion.ClearCorrectedKeepsFlags | Scripts/AudioOcclusion.cs:83-97 | in the corrected order a computed occlusion is never reported for an invalid system |
| AudioOcclusion.FirstHearable | Scripts/AudioOcclusion.cs:419-428 | the first neighbour probe from index 1 on within the hearing radius, or none exactly when every probe is beyond it |
| AudioOcclusion.SampleVoxel | Scripts/AudioOcclusion.cs:414-437 | the sampled voxel is the sound's own when within the radius, else the first neighbour within it, else unhearable; an answer is always a voxel within the radius |
| AudioTracer.SumUpdate | Scripts/AudioTracer.cs:339-342 | lowering one distance lowers the sum of distances by the difference, the termination measure |
| AudioTracer.LowerNeighbour | Scripts/AudioTracer.cs:335-342 | a neighbour whose stored distance exceeds the candidate gets the candidate and the outgoing direct voxel. Only that entry changes, the listener is never the neighbour, and the sum of distances strictly drops |
| AudioTracer.Admit | Scripts/AudioTracer.cs:343-362 | a lowered neighbour is enqueued unless it is beyond the hearing radius or solid, or the queue is full |
| AudioTracer.Visit | Scripts/AudioTracer.cs:333-363 | after visiting neighbour `k` it holds at most the candidate, no distance goes up, and a visit that lowers nothing enqueues nothing |
| AudioTracer.Spread | Scripts/AudioTracer.cs:333-363 | every neighbour of the dequeued voxel ends at most at its spreading distance plus the step cost (unless the queue fills); no distance increases |
| AudioTracer.Seed | Scripts/AudioTracer.cs:253-275 | after clearing, the listener voxel has distance 0 and no direct voxel, every other voxel holds the sentinels 0xFFFF and -1, and the listener is the sole queue entry (head 0, count 1); the tracer invariant holds |
| AudioTracer.Step | Scripts/AudioTracer.cs:282-364 | one dequeue keeps the invariant, never raises a distance, and strictly decreases (sum of distances, queue count) lexicographically |
| AudioTracer.Execute | Scripts/AudioTracer.cs:251-368 | the listener holds 0 and no direct voxel. A voxel still at `0xFFFF` has no direct voxel either, and every direct index names an interior voxel the fill may spread from. Every other reached voxel was written from a neighbour: an interior, enqueueable voxel whose distance plus the step cost is at most its own. Unless the queue overflowed, every voxel the fill may spread from is relaxed: none of its 26 neighbours could be lowered through it |
| AudioTracer.ReachedFromListener | Scripts/AudioTracer.cs:335-342 | under the fill's invariant every reached voxel ends a chain of neighbour steps from the listener voxel, each step from a voxel the fill spread from and adding at least its step cost |
| AudioTracer.Scheduler.GetNextFlip | Scripts/AudioTracer.cs:163-167 | toggles `flipped` and answers the buffer it now names |
| AudioTracer.Scheduler.OnSetupVoxelSystem | Scripts/AudioTracer.cs:131-148 | callable in any scheduler state that keeps the invariant (no job runs while the system is invalid, since jobs start only on a valid system). A no-op once set up. Otherwise no job is running, both buffers are fresh and blank, `readFlip != writeFlip`, and the system is valid |
| AudioTracer.Scheduler.OnGlobalReadAccessStart | Scripts/AudioTracer.cs:196-220 | a no-op while a job runs, when the system is invalid, or when no listener voxel is found; otherwise a job is started on the write buffer |
| AudioTracer.Scheduler.OnGlobalReadAccessStop | Scripts/AudioTracer.cs:222-231 | a no-op unless a job runs. Otherwise the buffer just written becomes `readFlip` and holds the run's finished fill, the other becomes `writeFlip`, and the job flag clears |
| AudioTracer.Scheduler.OnClearVoxelSystem | Scripts/AudioTracer.cs:120-129 | a no-op when not set up; otherwise a running job is waited for and both buffers are dropped |
| AudioSurface.Surface.IsAnyValid | Scripts/AudioSurface.cs:331-334 | false exactly when every property is unset, so that filling from any surface leaves nothing of the original |
| AudioSurface.Surface.SetInvalidFrom | Scripts/AudioSurface.cs:340-346 | the result has some property set whenever the surface or `from` has one |
| AudioSurface.SetInvalidFromProperties | Scripts/AudioSurface.cs:340-346 | exactly the properties at or below -1 are taken from `from`: a surface that sets nothing becomes `from`, one that sets everything is kept, and the operation is idempotent |
| AudioSurface.MakeSurface | Scripts/AudioSurface.cs:283-299 | a start value below -1 gives the defaults (0, 0, 0.5, 0); any other sets all four properties to it |
| AudioSurface.MakeSurfaceValidity | Scripts/AudioSurface.cs:331-334 | `IsAnyValid` of a constructed surface holds exactly when the start value is not -1 |
| AudioSurface.DefaultOverridesTakeBase | Scripts/AudioSurface.cs:46-51 | the component's default overrides `Surface(-1)` filled from a base surface give the base surface |
| AudioSurface.FirstRange | Scripts/AudioSurface.cs:446-455 | the first sub-mesh range holding the triangle, or none exactly when no range from there on holds it |
| AudioSurface.TriRanges.GetSurfaceI | Scripts/AudioSurface.cs:446-455 | the surface of the first range holding the triangle, else the first surface |
| AudioSurface.TriRanges.ToReference | Scripts/AudioSurface.cs:457-477 | the managed copy holds exactly the first `surfaceCount` entries of each buffer |
| AudioSurface.Reference.GetSurfaceI | Scripts/AudioSurface.cs:485-494 | the lookup over the managed copy answers one of its surfaces |
| AudioSurface.ToReferenceSameLookup | Scripts/AudioSurface.cs:446-494 | the managed copy answers every triangle lookup as the native ranges do |
| AudioSurface.Slot | Scripts/AudioSurface.cs:705-737 | the shared bounds fallback: the entry at an in-range index, else the fallback entry when that is in range. None, where C# throws `ArgumentOutOfRangeException`, exactly when both are out of range |
| AudioSurface.GetSurfaceNative | Scripts/AudioSurface.cs:715-720 | the entry at an in-range index; an out-of-range index reads slot 0. None, where C# throws, exactly when the list is empty; any answer is a registered surface |
| AudioSurface.GetSurfaceTypeNative | Scripts/AudioSurface.cs:732-737 | the entry at an in-range index; an out-of-range index reads slot 0. None, where C# throws, exactly when the list is empty; any answer is a registered type |
| AudioSurface.GetSurfaceINative | Scripts/AudioSurface.cs:682-695 | triangle ranges when asked about a triangle and present, else the collider's surface index, else 0 |
| AudioSurface.Registry.constructor | Scripts/AudioSurface.cs:532-545 | empty tables satisfying the registry invariant |
| AudioSurface.Registry.Register | Scripts/AudioSurface.cs:305-325 | with `0 <= surfI < count` that slot of all four lists is overwritten and `surfI` answered; otherwise all four are appended to and the old count answered. The four lists stay equal in length and in step |
| AudioSurface.Registry.RegisterConfig | Scripts/AudioSurface.cs:139-152 | when the type already has an in-range slot, the config's surface and type overwrite exactly that slot and every other slot is kept; otherwise they are appended at the old length. The type and each listed material name then map to that slot |
| AudioSurface.MapNames | Scripts/AudioSurface.cs:145-148 | every listed name maps to the slot, other names keep their entries, no other names appear |
| AudioSurface.Registry.MapMaterialNames | Scripts/AudioSurface.cs:145-148 | the loop leaves the material map equal to `MapNames` of the old map |
| AudioSurface.ColliderSurfaceI | Scripts/AudioSurface.cs:617-635 | a collider's `AudioSurface` index wins, else its material's, else the default index |
| AudioSurface.Registry.RegisterCollider | Scripts/AudioSurface.cs:602-639 | a no-op for a registered collider. Otherwise it is registered with its triangle ranges (no `AudioSurface`, ranges found) or with a surface index, never both, in managed and native tables alike |
| AudioSurface.Registry.UnregisterCollider | Scripts/AudioSurface.cs:641-660 | a no-op for an unregistered collider; otherwise it and whichever entry it had are removed |
| AudioSurface.Registry.ReRegisterCollider | Scripts/AudioSurface.cs:596-600 | unregister then register: the collider ends registered with the entry its current components give and no stale one (its triangle ranges, answering every triangle query, or its surface index), and every other collider's entries are kept |
| AudioSurface.Registry.GetSurfaceI | Scripts/AudioSurface.cs:665-676 | triangle ranges when asked about a triangle and present, else the collider's surface index, else the default index |
| AudioSurface.Registry.GetSurface | Scripts/AudioSurface.cs:705-709 | the entry at an in-range index; an out-of-range index reads the default slot. None, where C# throws, exactly when both the index and the default index are out of range; any answer is a registered surface |
| AudioSurface.Registry.GetSurfaceType | Scripts/AudioSurface.cs:722-726 | the entry at an in-range index; an out-of-range index reads the default slot. None, where C# throws, exactly when both the index and the default index are out of range; any answer is a registered type |
| AudioSurface.Registry.NativeLookupAgrees | Scripts/AudioSurface.cs:665-695 | managed and native collider lookups agree whenever the collider has an entry answering the query; otherwise they give the default index and 0 |
| AudioSurface.Registry.NativeSurfaceAgrees | Scripts/AudioSurface.cs:705-737 | managed and native getters agree on in-range indices, and on all indices (throwing alike) when the default index is 0 |
| AudioGlobals.Value | Scripts/AudioGlobals.cs:46-52 | an observation about the declaration: the enum's underlying values are 0, 10, 11, 20 |
| AudioGlobals.ValueInjective | Scripts/AudioGlobals.cs:46-52 | an observation about the declaration: distinct flags have distinct values |
| AudioGlobals.EffectsByBypass | Scripts/AudioGlobals.cs:58-73 | characterises the predicates `AudioGlobals.HasTracing`, `AudioGlobals.HasZones` and `AudioGlobals.HasAny`: `HasTracing` holds exactly when neither the sound nor the global flags bypass tracing or everything, `HasZones` likewise for zones. `HasAny` holds exactly when tracing or zones run, or one side bypasses tracing while the other bypasses zones |
| AudioGlobals.BypassAllDisablesEverything | Scripts/AudioGlobals.cs:58-73 | `bypassAll` on the sound or globally makes `HasAny`, `HasTracing` and `HasZones` all false |
| AudioGlobals.EffectImpliesAny | Scripts/AudioGlobals.cs:58-73 | `HasTracing` implies `HasAny`, and so does `HasZones` |
| AudioGlobals.EffectsCombined | Scripts/AudioGlobals.cs:58-73 | tracing and zones hold together exactly when both sides are `all`. Some effect without either holds exactly when one side bypasses tracing and the other zones |
| AudioInstances.Rank | Scripts/AudioInstance.cs:147-154 | an observation about the declaration: the lifecycle enum's values are multiples of 10 up to 40, the order `IsPlaying` and `TickHead` use |
| AudioInstances.AudioInstance.IsPlaying | Scripts/AudioInstance.cs:206-209 | playing exactly when the state lies strictly between `pendingPlay` and `pendingDestroy` in the lifecycle order |
| AudioInstances.AudioInstance.IsActive | Scripts/AudioInstance.cs:214-217 | the id -1 that construction and inactivation write reads as inactive |
| AudioInstances.AudioInstance.constructor | Scripts/AudioInstance.cs:62 | a new instance is inactive (id -1) and `pendingCreation`, with its effects, handle and inputs |
| AudioInstances.AudioInstance.SetPosition | Scripts/AudioInstance.cs:186-190 | the world position is always set; with a parent the local position is the parent's inverse transform of it |
| AudioInstances.AudioInstance.SetParent | Scripts/AudioInstance.cs:192-201 | the parent becomes the argument (none for null); a new parent gets the local position of the current world position |
| AudioInstances.AudioInstance.SetProps | Scripts/AudioInstance.cs:156-163 | no props change nothing; otherwise parent and position are taken from the props |
| AudioInstances.AudioInstance.TickHead | Scripts/AudioInstance.cs:259-270 | `pendingPlay` moves to `playing` (raising `Started`) exactly when each input is absent or ready; other states are unchanged; the tick continues exactly when playing; the state never moves back |
| AudioInstances.CreatedInput | Scripts/AudioManager.cs:181-182 | a new instance has an effect input exactly when the effect is on |
| AudioInstances.AudioInstanceRef.constructor | Scripts/AudioInstance.cs:14-18 | a reference captures the instance's current id and is valid |
| AudioInstances.AudioInstanceRef.Ai | Scripts/AudioInstance.cs:26-33 | the instance when valid, the shared dummy otherwise |
| AudioInstances.AudioInstanceRef.TryGetAudioInstance | Scripts/AudioInstance.cs:38-42 | non-null exactly when valid, and then the instance |
| AudioInstances.AudioInstanceRef.IsValid | Scripts/AudioInstance.cs:44-47 | while valid the instance is active exactly when the captured id is an active one; a reference with an active id to an instance now inactive is invalid |
| AudioInstances.InactivatedRefInvalid | Scripts/AudioInstance.cs:44-47 | a reference to an instance that has been inactivated is invalid, and both getters say so |
| AudioManager.RemoveFirstDistinct | Scripts/AudioManager.cs:373 | `List.Remove` on a list without repeats drops exactly that element and keeps the rest without repeats |
| AudioManager.Manager.RegisteredIffActive | Scripts/AudioManager.cs:366-378 | under the registry invariant, an instance held under a handle is registered by id exactly when it is active, and listed exactly then |
| AudioManager.Manager.NextIdUnused | Scripts/AudioManager.cs:185-186 | the next id is not registered, so ids handed out are unique |
| AudioManager.Manager.PlaySound | Scripts/AudioManager.cs:145-207 | a singleton whose last instance is still registered gets that instance with the new props and nothing is created. Otherwise a new `pendingCreation` instance is held under its handle, gets the id `nextId` (then incremented) as the config's last played id, and is registered and listed once. The registry invariant is kept |
| AudioManager.Manager.PlayExisting | Scripts/AudioManager.cs:149-163 | the singleton path changes only the existing instance's props |
| AudioManager.Manager.PlayNew | Scripts/AudioManager.cs:165-206 | a fresh instance registered under the old `nextId`, held under its handle, with its effect inputs and props |
| AudioManager.Manager.Register | Scripts/AudioManager.cs:184-193 | id `nextId` is given, `nextId` grows by one, and the instance is added to `idToAI` and to the end of `allAIs` |
| AudioManager.Manager.OnInactivate | Scripts/AudioManager.cs:366-378 | a no-op for an inactive instance; otherwise it is removed from `idToAI` and `allAIs` and its id becomes -1, which makes a second call a no-op |
| AudioManager.Manager.OnCreated | Scripts/AudioManager.cs:290-364 | a sound with effects whose channel group cannot be had returns the error unchanged; otherwise it becomes `pendingPlay` |
| AudioManager.Manager.OnStopped | Scripts/AudioManager.cs:380-390 | the instance is inactivated (an active one leaves `idToAI` under its old id and its first place in `allAIs`; an inactive one leaves the registry as it was), raises `Stopped`, is disposed without destroying and is left `pendingDestroy` |
| AudioManager.Manager.OnDestroy | Scripts/AudioManager.cs:392-412 | the instance is inactivated (registry as for `OnStopped`), raises `Stopped` and is disposed only if not already `pendingDestroy`, ends `destroyed`, and its handle is dropped |
| AudioManager.Manager.EventCallback | Scripts/AudioManager.cs:210-252 | dispatches on the callback kind to the handlers above, with their effect on the instance and on the registry; the created and timeline kinds leave the registry as it was; an unknown kind answers `ERR_BADCOMMAND` and changes nothing |
| AudioManager.Manager.SetListener | Scripts/AudioManager.cs:52-69 | without a new listener an existing one is kept and true answered. Otherwise the new or found listener is taken with its position, or false is answered when there is none |
| AudioManager.Lifecycle | Scripts/AudioManager.cs:145-412 | play, creation, a tick, stop and destruction: the sound plays after the first tick, raises `Started` then `Stopped` once, ends `destroyed` and unregistered, and its reference is invalid |
| AudioSettings.RoundToInt | Scripts/AudioSettings.cs:55 | `Mathf.RoundToInt`: within one half of its argument, and even at a tie |
| AudioSettings.RoundWhole | Scripts/AudioSettings.cs:55 | whole numbers are left as they are |
| AudioSettings.VoxUnits | Scripts/AudioSettings.cs:55 | meters as distance units (5 per voxel side), within one half of the exact conversion |
| AudioSettings.IndirectExtraVox | Scripts/AudioSettings.cs:56 | the same conversion cast to `ushort`: below 2^16, and the rounded value itself when that fits |
| AudioSettings.VoxUnitsExact | Scripts/AudioSettings.cs:55 | a distance of a whole number of units converts exactly |
| AudioSettings.VoxUnitsMonotone | Scripts/AudioSettings.cs:55 | a longer distance never converts to fewer units |
| AudioSettings.VoxUnitsScale | Scripts/AudioSettings.cs:55 | only the ratio of distance to voxel size matters: scaling both leaves the units unchanged |
| AudioSettings.VoxUnitsRoundTrip | Scripts/AudioSettings.cs:55 | converting the units back to meters, as the samplers do (without their integer division), lands within a tenth of a voxel of the original distance |
| AudioSettings.DefaultDistances | Scripts/AudioSettings.cs:153-157 | an observation about the defaults: 70 m and 3 m at half-meter voxels are 700 and 30 units |
| AudioSettings.TryAdd | Scripts/AudioSettings.cs:89-91 | `Dictionary.TryAdd` adds only a new key and keeps every old entry |
| AudioSettings.BusMapSound | Scripts/AudioSettings.cs:84-95 | every key of the bus map names one of the buses by its short or full path |
| AudioSettings.BusMapComplete | Scripts/AudioSettings.cs:84-95 | every bus's short path is a key; outside play mode every full path is one too |
| AudioSettings.BusMapGrows | Scripts/AudioSettings.cs:86-95 | an entry, once in the map, keeps its bus as later buses are added |
| AudioSettings.FirstPathWins | Scripts/AudioSettings.cs:89-94 | in play mode the entry under a bus's path is that bus or an earlier one, and a later duplicate adds nothing |
| AudioSettings.Settings.BuildBusMap | Scripts/AudioSettings.cs:84-95 | the loop builds exactly the bus map of the buses in order |
| AudioSettings.Settings.GetBus | Scripts/AudioSettings.cs:119-129 | the bus mapped under the path, or none exactly when the path is not registered |
| AudioSettings.Settings.GetBusAfterSetup | Scripts/AudioSettings.cs:84-129 | after setup every bus is found under its path, and whatever is found is a bus with that short or full path |
| AudioSettings.Settings.SetAudioPaused | Scripts/AudioSettings.cs:199-210 | a no-op when the flag already has the value. Otherwise the flag is set and exactly the pausable buses (all buses with `forceSet`) are paused or unpaused; the others keep their state |
| AudioSettings.ToStop | Scripts/AudioSettings.cs:220-224 | the sounds stopped are exactly the non-persistent ones, or all with `forceStop` |
| AudioSettings.ForceStopsAll | Scripts/AudioSettings.cs:222 | with `forceStop` every sound is stopped, in order |
| AudioSettings.StopAllAudio | Scripts/AudioSettings.cs:215-225 | the loop stops the sounds `ToStop` names, in order, with the requested stop mode |
| AudioReferenceAssets.Merge | Scripts/AudioReferenceAsset.cs:25-28 | the entry takes the default's name, and the default's value only when it was new |
| AudioReferenceAssets.MergeNewIsDefault | Scripts/AudioReferenceAsset.cs:26-27 | a new entry (no name, or empty name with value 0) becomes the default outright |
| AudioReferenceAssets.MergeIdempotent | Scripts/AudioReferenceAsset.cs:25-28 | with a default of non-empty name, merging a second time changes nothing |
| AudioReferenceAssets.MergeEmptyNameNotIdempotent | Scripts/AudioReferenceAsset.cs:26-28 | with a default of empty name, an entry set to 0 is taken for new on the next merge, so merging twice differs from once |
| AudioReferenceAssets.StateOf | Scripts/AudioReferenceAsset.cs:25 | a null entry counts as a new prop (null name, value 0) |
| AudioReferenceAssets.GetWithLength | Scripts/AudioReferenceAsset.cs:22 | a new array of the asked length keeping the old entries that fit, nulls after them |
| AudioReferenceAssets.AudioReferenceAsset.HasDefaultCustomProps | Scripts/AudioReferenceAsset.cs:13-16 | false exactly when the defaults are null or empty |
| AudioReferenceAssets.AudioReferenceAsset.UpdateDefaultCustomProps | Scripts/AudioReferenceAsset.cs:18-30 | without defaults the array is left as it is. Otherwise the answer has one non-null entry per default. Each entry keeps its old object or is a new one, and holds the merge of its old state with its default |
| AudioReferenceAssets.AudioReferenceAsset.MergeEntry | Scripts/AudioReferenceAsset.cs:25-28 | one loop pass: entry `i` becomes non-null with the merged state and no other entry or default changes |
| AudioReferenceAssets.PlaySingletone | Scripts/AudioReferenceAsset.cs:70-81 | a valid reference is kept and the model changes nothing (`ApplyTo` is left out); otherwise the sound is played as `PlaySound` does (the singleton's last instance is reused with the registry unchanged, or a fresh instance is registered under the next id and the handle) and the answered reference is valid and registered |

## Left out

- Floating point: the surface properties, positions and meter distances are reals. `Mathf.RoundToInt` is exact round-half-to-even on reals, and single-precision rounding is not modelled.
- Concurrency: the locks, the FMOD callbacks arriving on other threads, job scheduling, and the race on the `isCompleted` flag. Jobs run when they are waited for or by an explicit `RunOcclusionJob` step, and callbacks run one at a time.
- The voxel provider: the neighbour table is a parameter whose contract (26 unit-step offsets with positive costs) is a precondition; the closest-air-voxel search is an `Option` parameter.
- AudioOcclusion.Scheduler.OnGlobalReadAccessStart: the listener position and `camExtraDis` written into the buffer are floats and are not modelled. The budget precondition (hearing radius + penalty + any step cost below 65000) is a contract on the inputs that the source does not check, so the model does not cover `ushort` wrap-around in the fill.
- AudioOcclusion.SampleVoxel: requires that every neighbour probe `voxI + offsets[i]` lies in the grid. This is the voxel provider's promise for the index `PosToWVoxIndex_snapped` returns (the provider is not part of this model); AudioOcclusion.cs:414-437 reads the probes without checking it, so a position at the grid's edge is not covered.
- AudioTracer.Scheduler.OnGlobalReadAccessStart: carries the same budget precondition (hearing radius + indirection penalty + any step cost below 65000), which the source does not check either, so `ushort` wrap-around in the tracer's distances is not covered.
- The player build of the fill, without the editor's full-queue guard, can overwrite queued entries and is not modelled; the model includes the guard.
- The floating-point part of `SampleOcclusionAtPos` (direction, weights, occlusion amount, the outside-grid shortcut), `AudioBasics.cs`, `AudioBasicsJob.cs` and `AudioReverb.cs`: float heuristics and FMOD parameter calls.
- The grid copy job's byte copy: only its flag is modelled.
- `Dispose` of the buffers and the native-memory frees: dropping the buffer references stands for them.
- `TryCreateTriRanges`: Unity mesh and renderer queries. Its result is the `triRanges` parameter of `RegisterCollider`.
- `GetSurfaceI(string)`: it depends on dictionary iteration order and substring matching, so a material's index is the `materialSurfI` parameter.
- `GetSurfaceI(SurfaceType)`: the lookup that throws on a missing type is not modelled; `RegisterConfig` reads the type map directly.
- `Allocate`, `Dispose` and `OnSceneLoad` of the surface registry: an empty registry is the constructor. The float blending `JoinWith`, `Devide` and `Lerp` is not modelled. Of `InitSurfaceMaterial`, only the fill of the overrides from the base surface is modelled (`DefaultOverridesTakeBase`); the component's own registration is not.
- FMOD plumbing in AudioManager and AudioInstance:
  - DSP creation, `set3DAttributes` and `setCallback`;
  - the timeline and programmer-sound structs, so `Beat` and `Marker` only record the callback;
  - the reverb and low-pass mapping in the rest of `TickSource`;
  - `Stop`/`setPaused` on FMOD objects, where a bus's `paused` flag and the answered stop list stand for the calls.
- AudioManager.Manager.PlaySound: the source's `AudioConfig` is a mix of versions. The model uses the `lastPlayedId` field that `PlaySound` reads, and the `attatchTo` field of `AudioProps` that `SetProps` reads; neither is on the classes in the same version of the file.
- AudioManager.Manager.PlaySound requires a handle not already held when a new instance is made. FMOD gives every new event instance a fresh handle, and `Dictionary.Add` would throw otherwise.
- `AudioTracer.RemoveTraceInput` in `OnDestroy`: the trace input's bookkeeping in `AudioTracer` is not part of this model.
- `AudioInstance.nextId` is unbounded; the source's 32-bit `int` wrap-around after 2^31 sounds is not modelled.
- AudioTracer.Scheduler.OnGlobalReadAccessStart: AudioTracer.cs:213 reads `AudioSettings._indirectExtraVoxDistance`, which AudioSettings.cs does not declare; the field it declares is `_indirectExtraDistanceVox` (AudioSettings.cs:157), and the model passes that setting in as `indirectExtraDistanceVox`.
- AudioSettings.StopAllAudio: `isPersistent` is not a field in this version of AudioInstance.cs, so the persistent sounds are a set parameter. The snapshot copy `GetAllAudioInstancesSafe` is read as the `allAIs` list.
- AudioSettings.VoxUnits requires a positive voxel size; `VoxGlobalSettings.voxelSizeWorld` is not part of this model.
- AudioSettings.VoxUnitsRoundTrip: the samplers' back-conversion `vDis / 5 * voxelSize` divides integers first (AudioOcclusion.cs:465, AudioBasics.cs:240), which can lose up to 4 units more; that truncation is not modelled, since the samplers are not part of this model.
- Setup's other fields, the `clearHandle` call and the duplicate-path `Debug.Log`.
- AudioReferenceAssets.PlaySingletone: `AudioInstanceWrap`, `AudioReference` and `AudioProps.ApplyTo` are not part of this model. The reference's play is taken as `PlaySound` of its config, and applying props to a valid reference is not modelled. The `SetVolume`/`SetPitch` overrides are FMOD calls and are left out.
- AudioReferenceAssets.AudioReferenceAsset.UpdateDefaultCustomProps requires that the props entries are distinct objects, none shared with the defaults (serialized arrays do not alias); aliased entries are not modelled. `GetWithLenght` is declared outside the core and is modelled as `GetWithLength`.
- `AudioConfig`'s other settings, the custom-prop defaults for a null `CustomProp` member, and component glue (`AudioPlayer.cs`, `AudioZones.cs`, `AudioConfigAsset.cs`, the editor and demo scripts).
- Unity lifecycle: scene-load hooks, `SetVoxGlobalHandler`, `Init`/`Destroy`, and the debug gizmos.
- `Transform.InverseTransformPoint` is a function parameter, and the camera position is not modelled.

## Findings

| source | as written | input that shows it | evidently intended | confidence | as-written member | corrected member |
|---|---|---|---|---|---|---|
| Scripts/AudioOcclusion.cs:83-97 | `OnClearVoxelSystem` clears `hasComputedOcclusion` and then calls `TryCompleteOcclusionJob(true)`, which sets it back to true when a job was running. The buffers are then freed | clearing a valid system while a job is active: flags valid = true, computed = false, job active = true end as valid = false, computed = true | clear the flag after the forced completion, so a computed occlusion is never reported for an invalid system whose buffers are gone (readers test the flag, AudioBasics.cs:53-60) | not executed | AudioOcclusion.ClearAsWrittenLeavesComputed | AudioOcclusion.Scheduler.OnClearVoxelSystem |
