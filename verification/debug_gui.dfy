/** The bookkeeping of the debug overlay's `showWindow`: three buttons that act on the
    scene's id -> GameObject map, and the vertex total it reports. */
module DebugOverlay {
  import opened GameObjects

  /** What the user did to the overlay during one frame. */
  datatype Buttons = Buttons(
    collapsed: bool,            // the window is collapsed: `ImGui::Begin` returned false
    renderChunkBorders: bool,   // "Render chunk borders" was clicked
    renderWireframes: bool,     // "Render wireframes borders" was clicked
    disableChunkLoading: bool)  // "Disable chunk loading" was clicked

  /** The persistent toggles. */
  datatype Flags = Flags(chunkBordersShown: bool, renderWireframes: bool, chunkLoadingDisabled: bool)

  /** How a call of `showWindow` ends. `OutOfRange(id)` is the exception `at(id)` throws
      for a border id that is not a key of the map. */
  datatype Outcome = Collapsed | Shown(vertices: u32) | OutOfRange(id: nat)

  /** The state after one call: the toggles, the scene map and how the call ended. */
  datatype Frame = Frame(flags: Flags, objects: ObjectMap, outcome: Outcome)

  // ---------------------------------------------------------------------------
  // Specification functions

  /** The map after every entry whose id occurs in `ids` got `isActive := shown`. */
  function WithBorderVisibility(m: ObjectMap, ids: seq<nat>, shown: bool): ObjectMap
  {
    map k | k in m :: if k in ids then m[k].(isActive := shown) else m[k]
  }

  /** One object after a wireframe toggle that set the flag to `wireframes`. */
  function Remoded(o: GameObject, wireframes: bool): GameObject
  {
    if !o.isActive || o.renderMode == Wireframe then o
    else o.(renderMode := if wireframes then Both else Filled)
  }

  /** The map after a wireframe toggle that set the flag to `wireframes`. */
  function WithRenderModes(m: ObjectMap, wireframes: bool): ObjectMap
  {
    map k | k in m :: Remoded(m[k], wireframes)
  }

  /** What one object adds to the vertex total: its vertex count if it is active and
      owns a model. */
  function Contribution(o: GameObject): nat
  {
    if o.model.Some? && o.isActive then o.model.value.VertexCount() else 0
  }

  /** The sum of the contributions of the entries of `m` whose ids are in `keys`. */
  ghost function SumOver(m: ObjectMap, keys: set<nat>): nat
    requires keys <= m.Keys
    decreases keys
  {
    if keys == {} then 0
    else
      var k :| k in keys;
      Contribution(m[k]) + SumOver(m, keys - {k})
  }

  /** The number of vertices of the active objects that own a model, as an unbounded
      integer. */
  ghost function VertexTotal(m: ObjectMap): nat
  {
    SumOver(m, m.Keys)
  }

  /** The position of the first id in `ids` that is not in `keys`, or |ids| if there is
      none: how far the border loop gets before `at` throws. */
  function FirstMissing(keys: set<nat>, ids: seq<nat>): (j: nat)
    ensures j <= |ids|
    ensures forall i :: 0 <= i < j ==> ids[i] in keys
    ensures j < |ids| ==> ids[j] !in keys
  {
    if ids == [] then 0
    else if ids[0] !in keys then 0
    else 1 + FirstMissing(keys, ids[1..])
  }

  /** One call of `showWindow`, from the toggles `f`, the buttons `b`, the scene `m` and
      the border ids `ids`. The buttons act in the order of the source: borders, then
      wireframes, then chunk loading; the vertex total is taken last. */
  ghost function Step(f: Flags, b: Buttons, m: ObjectMap, ids: seq<nat>): Frame
  {
    if b.collapsed then Frame(f, m, Collapsed)
    else
      var shown := if b.renderChunkBorders then !f.chunkBordersShown else f.chunkBordersShown;
      var reached := FirstMissing(m.Keys, ids);
      if b.renderChunkBorders && reached < |ids| then
        Frame(f.(chunkBordersShown := shown), WithBorderVisibility(m, ids[..reached], shown),
              OutOfRange(ids[reached]))
      else
        var m1 := if b.renderChunkBorders then WithBorderVisibility(m, ids, shown) else m;
        var wire := if b.renderWireframes then !f.renderWireframes else f.renderWireframes;
        var m2 := if b.renderWireframes then WithRenderModes(m1, wire) else m1;
        var noLoading := if b.disableChunkLoading then !f.chunkLoadingDisabled else f.chunkLoadingDisabled;
        Frame(Flags(shown, wire, noLoading), m2, Shown(Wrap32(VertexTotal(m2))))
  }

  // ---------------------------------------------------------------------------
  // The loops of showWindow

  /** The border loop: sets `isActive := shown` on the objects listed in `ids`, in list
      order, and stops at the first id that is not a key (where `at` throws). */
  method SetBorderVisibility(objects: ObjectMap, ids: seq<nat>, shown: bool)
    returns (updated: ObjectMap, missing: Option<nat>)
    ensures missing == None <==> forall i :: 0 <= i < |ids| ==> ids[i] in objects
    ensures missing.None? ==> updated == WithBorderVisibility(objects, ids, shown)
    ensures missing.Some? ==>
              var j := FirstMissing(objects.Keys, ids);
              j < |ids| && missing.value == ids[j] && missing.value !in objects &&
              updated == WithBorderVisibility(objects, ids[..j], shown)
  {
    updated := objects;
    var i := 0;
    while i < |ids|
      invariant 0 <= i <= |ids|
      invariant forall p :: 0 <= p < i ==> ids[p] in objects
      invariant updated == WithBorderVisibility(objects, ids[..i], shown)
    {
      var id := ids[i];
      if id !in updated {
        assert FirstMissing(objects.Keys, ids) == i;
        return updated, Some(id);
      }
      updated := updated[id := updated[id].(isActive := shown)];
      assert ids[..i + 1] == ids[..i] + [id];
      i := i + 1;
    }
    assert ids[..i] == ids;
    missing := None;
  }

  /** The wireframe loop: visits every entry of the map in an unspecified order; an
      inactive object or one in WIREFRAME mode is skipped, any other one gets BOTH when
      `wireframes` holds and FILLED otherwise. */
  method ApplyRenderModes(objects: ObjectMap, wireframes: bool) returns (updated: ObjectMap)
    ensures updated.Keys == objects.Keys
    ensures forall k :: k in objects && (!objects[k].isActive || objects[k].renderMode == Wireframe) ==>
              updated[k] == objects[k]
    ensures forall k :: k in objects && objects[k].isActive && objects[k].renderMode != Wireframe ==>
              updated[k] == objects[k].(renderMode := if wireframes then Both else Filled)
    ensures updated == WithRenderModes(objects, wireframes)
  {
    updated := objects;
    var todo := objects.Keys;
    while todo != {}
      invariant todo <= objects.Keys && updated.Keys == objects.Keys
      invariant forall k :: k in objects ==>
                  updated[k] == if k in todo then objects[k] else Remoded(objects[k], wireframes)
      decreases todo
    {
      var k :| k in todo;
      todo := todo - {k};
      var gameObj := updated[k];
      if !gameObj.isActive || gameObj.renderMode == Wireframe {
        continue;
      }
      if wireframes {
        updated := updated[k := gameObj.(renderMode := Both)];
      } else {
        updated := updated[k := gameObj.(renderMode := Filled)];
      }
    }
  }

  /** Adding one contribution to a value kept modulo 2^32. */
  lemma AddWrapped(total: nat, c: nat)
    ensures Wrap32(Wrap32(total) + c) == Wrap32(total + c)
  {
  }

  /** The vertex-count loop: a `uint32_t` accumulator over every entry of the map, in an
      unspecified order, adding the vertex count of each active object that owns a
      model. */
  method CountVertices(objects: ObjectMap) returns (vertices: u32)
    ensures vertices == Wrap32(VertexTotal(objects))
    ensures VertexTotal(objects) < U32_MODULUS ==> vertices == VertexTotal(objects)
  {
    vertices := 0;
    var todo := objects.Keys;
    ghost var done: set<nat> := {};
    while todo != {}
      invariant todo <= objects.Keys && done == objects.Keys - todo
      invariant vertices == Wrap32(SumOver(objects, done))
      decreases todo
    {
      var k :| k in todo;
      var obj := objects[k];
      SumOverRemove(objects, done + {k}, k);
      assert (done + {k}) - {k} == done;
      AddWrapped(SumOver(objects, done), Contribution(obj));
      todo := todo - {k};
      done := done + {k};
      if obj.model == None {
        continue;
      }
      if !obj.isActive {
        continue;
      }
      vertices := Wrap32(vertices + obj.model.value.VertexCount());
    }
    assert done == objects.Keys;
  }

  /** Removing any one key from a vertex sum takes away exactly its contribution, so the
      sum does not depend on the order in which the keys are visited. */
  lemma {:induction false} SumOverRemove(m: ObjectMap, keys: set<nat>, k: nat)
    requires keys <= m.Keys && k in keys
    ensures SumOver(m, keys) == Contribution(m[k]) + SumOver(m, keys - {k})
    decreases keys
  {
    var j :| j in keys && SumOver(m, keys) == Contribution(m[j]) + SumOver(m, keys - {j});
    if j != k {
      SumOverRemove(m, keys - {j}, k);
      SumOverRemove(m, keys - {k}, j);
      assert keys - {j} - {k} == keys - {k} - {j};
    }
  }

  // ---------------------------------------------------------------------------
  // Properties of one and of two calls

  /** Only "Render chunk borders" clicked. */
  const BordersOnly := Buttons(false, true, false, false)
  /** Only "Render wireframes borders" clicked. */
  const WireframesOnly := Buttons(false, false, true, false)
  /** Only "Disable chunk loading" clicked. */
  const ChunkLoadingOnly := Buttons(false, false, false, true)

  /** A collapsed window changes no flag and no map entry. */
  lemma CollapsedChangesNothing(f: Flags, b: Buttons, m: ObjectMap, ids: seq<nat>)
    requires b.collapsed
    ensures Step(f, b, m, ids) == Frame(f, m, Collapsed)
  {
  }

  /** No call adds or removes a map entry. */
  lemma StepKeepsKeys(f: Flags, b: Buttons, m: ObjectMap, ids: seq<nat>)
    ensures Step(f, b, m, ids).objects.Keys == m.Keys
  {
  }

  /** A border click negates the flag and sets (not flips) `isActive` of every listed
      object to the new value; the other objects keep their `isActive`. */
  lemma BorderClickSetsListed(f: Flags, b: Buttons, m: ObjectMap, ids: seq<nat>)
    requires !b.collapsed && b.renderChunkBorders
    requires forall i :: 0 <= i < |ids| ==> ids[i] in m
    ensures var r := Step(f, b, m, ids);
            && r.flags.chunkBordersShown == !f.chunkBordersShown
            && r.outcome.Shown?
            && (forall i :: 0 <= i < |ids| ==> r.objects[ids[i]].isActive == !f.chunkBordersShown)
            && (forall k :: k in m && k !in ids ==> r.objects[k].isActive == m[k].isActive)
  {
  }

  /** A border click with an id that is not in the map throws: the flag is already
      negated and the ids before the first missing one are already set, while the
      wireframe and chunk-loading clicks of that call are not carried out. */
  lemma BorderClickMissingIdThrows(f: Flags, b: Buttons, m: ObjectMap, ids: seq<nat>, i: nat)
    requires !b.collapsed && b.renderChunkBorders
    requires i < |ids| && ids[i] !in m
    ensures var r := Step(f, b, m, ids);
            var j := FirstMissing(m.Keys, ids);
            && r.outcome.OutOfRange? && r.outcome.id !in m && r.outcome.id in ids[..i + 1]
            && r.outcome == OutOfRange(ids[j])
            && r.objects == WithBorderVisibility(m, ids[..j], !f.chunkBordersShown)
            && r.flags == f.(chunkBordersShown := !f.chunkBordersShown)
            && (forall k :: k in m ==> r.objects[k].renderMode == m[k].renderMode)
  {
  }

  /** Two border clicks restore the flag and leave every listed object with
      `isActive` equal to it; objects that are not listed are untouched. */
  lemma BorderClickTwice(f: Flags, m: ObjectMap, ids: seq<nat>)
    requires forall i :: 0 <= i < |ids| ==> ids[i] in m
    ensures var r1 := Step(f, BordersOnly, m, ids);
            var r2 := Step(r1.flags, BordersOnly, r1.objects, ids);
            && r2.flags == f
            && r2.objects.Keys == m.Keys
            && (forall i :: 0 <= i < |ids| ==> r2.objects[ids[i]] == m[ids[i]].(isActive := f.chunkBordersShown))
            && (forall k :: k in m && k !in ids ==> r2.objects[k] == m[k])
  {
  }

  /** A wireframe click negates the flag; inactive objects and objects in WIREFRAME
      mode are untouched, every other object gets BOTH if the new flag is set and
      FILLED otherwise. */
  lemma WireframeClick(f: Flags, m: ObjectMap, ids: seq<nat>)
    ensures var r := Step(f, WireframesOnly, m, ids);
            && r.flags == f.(renderWireframes := !f.renderWireframes)
            && r.objects.Keys == m.Keys
            && (forall k :: k in m && (!m[k].isActive || m[k].renderMode == Wireframe) ==> r.objects[k] == m[k])
            && (forall k :: k in m && m[k].isActive && m[k].renderMode != Wireframe ==>
                  r.objects[k] == m[k].(renderMode := if !f.renderWireframes then Both else Filled))
  {
  }

  /** Two wireframe clicks restore the flag and leave every active object that is not
      in WIREFRAME mode in the mode the flag selects, whatever mode it had before;
      all other objects are untouched. */
  lemma WireframeClickTwice(f: Flags, m: ObjectMap, ids: seq<nat>)
    ensures var r1 := Step(f, WireframesOnly, m, ids);
            var r2 := Step(r1.flags, WireframesOnly, r1.objects, ids);
            && r2.flags == f
            && r2.objects.Keys == m.Keys
            && (forall k :: k in m && (!m[k].isActive || m[k].renderMode == Wireframe) ==> r2.objects[k] == m[k])
            && (forall k :: k in m && m[k].isActive && m[k].renderMode != Wireframe ==>
                  r2.objects[k] == m[k].(renderMode := if f.renderWireframes then Both else Filled))
  {
  }

  /** Starting from wireframes off, an on-then-off pair of clicks leaves every active
      object that is not in WIREFRAME mode in FILLED mode, even one that was in BOTH. */
  lemma WireframeOnThenOffFills(f: Flags, m: ObjectMap, ids: seq<nat>, k: nat)
    requires !f.renderWireframes
    requires k in m && m[k].isActive && m[k].renderMode != Wireframe
    ensures var r1 := Step(f, WireframesOnly, m, ids);
            var r2 := Step(r1.flags, WireframesOnly, r1.objects, ids);
            && r1.objects[k].renderMode == Both
            && r2.objects[k].renderMode == Filled
  {
  }

  /** A chunk-loading click negates that flag and changes nothing else. */
  lemma ChunkLoadingClick(f: Flags, m: ObjectMap, ids: seq<nat>)
    ensures Step(f, ChunkLoadingOnly, m, ids)
            == Frame(f.(chunkLoadingDisabled := !f.chunkLoadingDisabled), m, Shown(Wrap32(VertexTotal(m))))
  {
  }

  /** A vertex sum does not decrease when no entry contributes less in `m2` than in `m1`. */
  lemma {:induction false} SumOverMonotone(m1: ObjectMap, m2: ObjectMap, keys: set<nat>)
    requires keys <= m1.Keys && keys <= m2.Keys
    requires forall k :: k in keys ==> Contribution(m1[k]) <= Contribution(m2[k])
    ensures SumOver(m1, keys) <= SumOver(m2, keys)
    decreases keys
  {
    if keys != {} {
      var k :| k in keys;
      SumOverRemove(m1, keys, k);
      SumOverRemove(m2, keys, k);
      SumOverMonotone(m1, m2, keys - {k});
    }
  }

  /** The render mode does not enter the vertex total: a wireframe toggle never
      changes the reported count. */
  lemma RenderModesKeepVertexTotal(m: ObjectMap, wireframes: bool)
    ensures VertexTotal(WithRenderModes(m, wireframes)) == VertexTotal(m)
  {
    var r := WithRenderModes(m, wireframes);
    assert r.Keys == m.Keys;
    SumOverMonotone(m, r, m.Keys);
    SumOverMonotone(r, m, m.Keys);
  }

  /** Showing the chunk borders never lowers the unbounded vertex total, and hiding them
      never raises it. The displayed `uint32_t` count can still fall, because it wraps. */
  lemma BordersShownAddVertices(m: ObjectMap, ids: seq<nat>)
    ensures VertexTotal(WithBorderVisibility(m, ids, false)) <= VertexTotal(m)
    ensures VertexTotal(m) <= VertexTotal(WithBorderVisibility(m, ids, true))
  {
    var hidden, shown := WithBorderVisibility(m, ids, false), WithBorderVisibility(m, ids, true);
    assert hidden.Keys == m.Keys && shown.Keys == m.Keys;
    SumOverMonotone(hidden, m, m.Keys);
    SumOverMonotone(m, shown, m.Keys);
  }

  // ---------------------------------------------------------------------------
  // The overlay object

  class DebugGui {
    var chunkBordersShown: bool
    var renderWireframes: bool
    /** Reached through the frame info in the source; toggled by "Disable chunk loading". */
    var chunkLoadingDisabled: bool

    function State(): Flags
      reads this
    {
      Flags(chunkBordersShown, renderWireframes, chunkLoadingDisabled)
    }

    /** Both overlay toggles start off; the chunk-loading flag is the frame's. */
    constructor (chunkLoadingDisabled: bool)
      ensures !chunkBordersShown && !renderWireframes
      ensures this.chunkLoadingDisabled == chunkLoadingDisabled
    {
      chunkBordersShown := false;
      renderWireframes := false;
      this.chunkLoadingDisabled := chunkLoadingDisabled;
    }

    /** One frame of the overlay. Returns the scene map as the call leaves it and how the
        call ended (with the vertex total it displays). */
    method ShowWindow(buttons: Buttons, objects: ObjectMap, chunkBorderIds: seq<nat>)
      returns (updated: ObjectMap, outcome: Outcome)
      modifies this
      ensures Frame(State(), updated, outcome) == Step(old(State()), buttons, objects, chunkBorderIds)
      ensures buttons.collapsed ==> State() == old(State()) && updated == objects && outcome == Collapsed
      ensures updated.Keys == objects.Keys
      ensures outcome.Shown? ==> outcome.vertices == Wrap32(VertexTotal(updated))
    {
      if buttons.collapsed {
        return objects, Collapsed;
      }
      updated := objects;

      if buttons.renderChunkBorders {
        chunkBordersShown := !chunkBordersShown;
        var missing;
        updated, missing := SetBorderVisibility(updated, chunkBorderIds, chunkBordersShown);
        if missing.Some? {
          return updated, OutOfRange(missing.value);
        }
      }

      if buttons.renderWireframes {
        renderWireframes := !renderWireframes;
        updated := ApplyRenderModes(updated, renderWireframes);
      }

      if buttons.disableChunkLoading {
        chunkLoadingDisabled := !chunkLoadingDisabled;
      }

      var vertices := CountVertices(updated);
      outcome := Shown(vertices);
    }
  }
}
