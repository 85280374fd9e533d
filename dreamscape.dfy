/** The dreamscape's theme bookkeeping: one object list per theme, and a timed transition
    that fades the old theme's objects out and the new theme's objects in. */
module Dreamscape {
  import opened Vectors

  const TransitionDuration: real := 5.0

  datatype Theme = Islands | Forests | Cities

  /** A material; `None` stands for a property the material does not define. */
  datatype Material = Material(opacity: Option<real>, transparent: Option<bool>)

  /** An object's `material`: absent, one material, or an array of them. */
  datatype MaterialSlot = NoMaterial | Single(material: Material) | Multi(materials: seq<Material>)

  /** A scene object, as far as the transition touches it. */
  datatype SceneObject = SceneObject(slot: MaterialSlot)

  /** The edits the transition makes to each material of an object. */
  datatype MaterialEdit =
    | Hide                   // `transitionTheme`, new theme: transparent, opacity 0
    | EnableTransparency     // `transitionTheme`, old theme: transparent
    | SetOpacity(value: real) // `updateTransitionOpacities`
    | Restore                // `finishTransition`: opacity 1, then opaque

  /** One edit applied to one material; properties it does not define stay undefined. */
  function EditMaterial(e: MaterialEdit, mt: Material): Material {
    match e
    case Hide =>
      Material(if mt.opacity.Some? then Some(0.0) else None,
               if mt.transparent.Some? then Some(true) else None)
    case EnableTransparency =>
      mt.(transparent := if mt.transparent.Some? then Some(true) else None)
    case SetOpacity(v) =>
      mt.(opacity := if mt.opacity.Some? then Some(v) else None)
    case Restore =>
      var o := if mt.opacity.Some? then Some(1.0) else None;
      // transparency is dropped only when the (just reset) opacity is defined and >= 1
      Material(o, if mt.transparent.Some? && o.Some? && o.value >= 1.0 then Some(false) else mt.transparent)
  }

  /** The materials of an object, in order. */
  function MaterialsOf(o: SceneObject): seq<Material> {
    match o.slot
    case NoMaterial => []
    case Single(mt) => [mt]
    case Multi(ms) => ms
  }

  function EditObject(e: MaterialEdit, o: SceneObject): SceneObject {
    match o.slot
    case NoMaterial => o
    case Single(mt) => SceneObject(Single(EditMaterial(e, mt)))
    case Multi(ms) => SceneObject(Multi(seq(|ms|, k requires 0 <= k < |ms| => EditMaterial(e, ms[k]))))
  }

  function EditAll(e: MaterialEdit, objs: seq<SceneObject>): (r: seq<SceneObject>)
    ensures |r| == |objs|
  {
    seq(|objs|, i requires 0 <= i < |objs| => EditObject(e, objs[i]))
  }

  /** Editing keeps every object's shape: the same materials, each edited in place. */
  lemma EditObjectMaterials(e: MaterialEdit, o: SceneObject)
    ensures |MaterialsOf(EditObject(e, o))| == |MaterialsOf(o)|
    ensures forall k :: 0 <= k < |MaterialsOf(o)| ==> MaterialsOf(EditObject(e, o))[k] == EditMaterial(e, MaterialsOf(o)[k])
  {
  }

  /** Every defined opacity of every object in the list equals `v`. */
  ghost predicate OpacityIs(objs: seq<SceneObject>, v: real) {
    forall i, k :: 0 <= i < |objs| && 0 <= k < |MaterialsOf(objs[i])| && MaterialsOf(objs[i])[k].opacity.Some? ==>
      MaterialsOf(objs[i])[k].opacity.value == v
  }

  /** Every defined transparency flag of every object in the list equals `b`. */
  ghost predicate TransparencyIs(objs: seq<SceneObject>, b: bool) {
    forall i, k :: 0 <= i < |objs| && 0 <= k < |MaterialsOf(objs[i])| && MaterialsOf(objs[i])[k].transparent.Some? ==>
      MaterialsOf(objs[i])[k].transparent.value == b
  }

  /** After `SetOpacity(v)` every defined opacity is v; after `Hide` every defined opacity is 0
      and every defined transparency flag is set; after `Restore` every defined opacity is 1
      and every material with both properties defined is opaque. Definedness never changes. */
  lemma {:induction false} EditAllEffects(e: MaterialEdit, objs: seq<SceneObject>)
    ensures e.SetOpacity? ==> OpacityIs(EditAll(e, objs), e.value)
    ensures e.Hide? ==> OpacityIs(EditAll(e, objs), 0.0) && TransparencyIs(EditAll(e, objs), true)
    ensures e.EnableTransparency? ==> TransparencyIs(EditAll(e, objs), true)
    ensures e.Restore? ==> OpacityIs(EditAll(e, objs), 1.0)
    ensures forall i, k :: 0 <= i < |objs| && 0 <= k < |MaterialsOf(objs[i])| ==>
      && |MaterialsOf(EditAll(e, objs)[i])| == |MaterialsOf(objs[i])|
      && (MaterialsOf(EditAll(e, objs)[i])[k].opacity.Some? <==> MaterialsOf(objs[i])[k].opacity.Some?)
      && (MaterialsOf(EditAll(e, objs)[i])[k].transparent.Some? <==> MaterialsOf(objs[i])[k].transparent.Some?)
      && (e.Restore? && MaterialsOf(objs[i])[k].opacity.Some? && MaterialsOf(objs[i])[k].transparent.Some? ==>
            MaterialsOf(EditAll(e, objs)[i])[k].transparent == Some(false))
  {
    var r := EditAll(e, objs);
    forall i | 0 <= i < |objs|
      ensures |MaterialsOf(r[i])| == |MaterialsOf(objs[i])|
      ensures forall k :: 0 <= k < |MaterialsOf(objs[i])| ==> MaterialsOf(r[i])[k] == EditMaterial(e, MaterialsOf(objs[i])[k])
    {
      assert r[i] == EditObject(e, objs[i]);
      EditObjectMaterials(e, objs[i]);
    }
  }

  const EmptyThemes: map<Theme, seq<SceneObject>> := map[Islands := [], Forests := [], Cities := []]

  /** The transition's progress for a remaining time: 1 - remaining/duration, clamped to [0, 1]. */
  function Progress(timeRemaining: real, duration: real): real
    requires duration > 0.0
  {
    Clamp(1.0 - timeRemaining / duration, 0.0, 1.0)
  }

  /** Progress is 0 at the start, 1 once the time is up, linear in between, and it only grows
      as the remaining time falls. */
  lemma ProgressShape(t1: real, t2: real, duration: real)
    requires duration > 0.0
    ensures Progress(duration, duration) == 0.0
    ensures t1 <= 0.0 ==> Progress(t1, duration) == 1.0
    ensures 0.0 <= t1 <= duration ==> Progress(t1, duration) == 1.0 - t1 / duration
    ensures t1 <= t2 ==> Progress(t1, duration) >= Progress(t2, duration)
  {
    if t1 <= 0.0 {
      assert t1 / duration <= 0.0;
    }
    if 0.0 <= t1 <= duration {
      assert t1 / duration <= 1.0;
      assert t1 / duration >= 0.0;
    }
    if t1 <= t2 {
      assert t1 / duration <= t2 / duration;
    }
  }

  /** The lists after `updateTransitionOpacities` at progress `p`: the old theme's objects at
      opacity 1 - p, the new theme's at p, every other list as it was. */
  function Faded(themes: map<Theme, seq<SceneObject>>, from: Theme, to: Theme, p: real): map<Theme, seq<SceneObject>>
    requires from in themes && to in themes
  {
    themes[from := EditAll(SetOpacity(1.0 - p), themes[from])][to := EditAll(SetOpacity(p), themes[to])]
  }

  class DreamscapeState {
    var currentTheme: Theme
    var themes: map<Theme, seq<SceneObject>>
    var active: bool
    var progress: real
    var fromTheme: Option<Theme>
    var toTheme: Option<Theme>
    var duration: real
    var timeRemaining: real
    var time: real

    ghost predicate Valid()
      reads this
    {
      && (forall t: Theme :: t in themes)
      && duration > 0.0
      && (active ==> fromTheme.Some? && toTheme.Some? && fromTheme != toTheme)
    }

    /** The initial `dreamscape` record. */
    constructor ()
      ensures Valid()
      ensures currentTheme == Islands && themes == EmptyThemes
      ensures !active && progress == 0.0 && fromTheme == None && toTheme == None
      ensures duration == TransitionDuration && timeRemaining == 0.0 && time == 0.0
    {
      currentTheme := Islands;
      themes := map[];
      active := false;
      progress := 0.0;
      fromTheme := None;
      toTheme := None;
      duration := TransitionDuration;
      timeRemaining := 0.0;
      time := 0.0;
      new;
      ClearDreamscape();
    }

    /** `clearDreamscape`: every theme's object list becomes empty. */
    method ClearDreamscape()
      modifies this`themes
      ensures themes == EmptyThemes
      ensures forall t: Theme :: t in themes && themes[t] == []
    {
      themes := EmptyThemes;
      forall t: Theme
        ensures t in themes && themes[t] == []
      {
        match t
        case Islands =>
        case Forests =>
        case Cities =>
      }
    }

    /** `generateDreamscape`: clear everything, switch the current theme, and let the theme's
        generator fill its list (modelled as the objects it produces, `generated`). */
    method GenerateDreamscape(theme: Theme, generated: seq<SceneObject>)
      modifies this`themes, this`currentTheme
      ensures currentTheme == theme
      ensures themes == EmptyThemes[theme := generated]
      ensures forall t: Theme :: t in themes && (t != theme ==> themes[t] == [])
    {
      ClearDreamscape();
      currentTheme := theme;
      themes := themes[theme := generated];
    }

    /** One of the per-object loops of the transition: applies `e` to every material of every
        object of `theme`'s list, in place. */
    method EditTheme(theme: Theme, e: MaterialEdit)
      requires theme in themes
      modifies this`themes
      ensures themes == old(themes)[theme := EditAll(e, old(themes)[theme])]
      ensures forall t: Theme :: t in old(themes) ==> t in themes
    {
      var objs := themes[theme];
      var i := 0;
      while i < |objs|
        invariant 0 <= i <= |objs| == |old(themes)[theme]|
        invariant themes == old(themes)
        invariant forall j :: 0 <= j < i ==> objs[j] == EditObject(e, old(themes)[theme][j])
        invariant forall j :: i <= j < |objs| ==> objs[j] == old(themes)[theme][j]
      {
        objs := objs[i := EditObject(e, objs[i])];
        i := i + 1;
      }
      assert objs == EditAll(e, old(themes)[theme]);
      themes := themes[theme := objs];
    }

    /** `transitionTheme`: nothing happens if `to` is already current. Otherwise the transition
        starts, the new theme is generated with its objects hidden, and the old theme's list,
        emptied by the generation, has nothing left to make transparent. */
    method TransitionTheme(to: Theme, duration: real, generated: seq<SceneObject>)
      requires Valid() && duration > 0.0
      modifies this
      ensures Valid()
      ensures old(currentTheme) == to ==>
        && currentTheme == old(currentTheme) && themes == old(themes) && active == old(active)
        && progress == old(progress) && fromTheme == old(fromTheme) && toTheme == old(toTheme)
        && this.duration == old(this.duration) && timeRemaining == old(timeRemaining)
      ensures old(currentTheme) == to ==> unchanged(this)
      ensures old(currentTheme) != to ==>
        && active && fromTheme == Some(old(currentTheme)) && toTheme == Some(to)
        && progress == 0.0 && this.duration == duration && timeRemaining == duration
        && currentTheme == to
        && themes == EmptyThemes[to := EditAll(Hide, generated)]
        && themes[old(currentTheme)] == []
      ensures time == old(time)
    {
      if currentTheme == to {
        return;
      }
      var from := currentTheme;
      active := true;
      fromTheme := Some(from);
      toTheme := Some(to);
      progress := 0.0;
      this.duration := duration;
      timeRemaining := duration;
      GenerateHidden(from, to, generated);
    }

    /** The object part of `transitionTheme`: generate `to` and hide its objects, then make
        the (now empty) list of `from` transparent. */
    method GenerateHidden(from: Theme, to: Theme, generated: seq<SceneObject>)
      requires from != to
      modifies this`themes, this`currentTheme
      ensures currentTheme == to
      ensures themes == EmptyThemes[to := EditAll(Hide, generated)]
      ensures themes[from] == []
      ensures forall t: Theme :: t in themes
    {
      GenerateDreamscape(to, generated);
      ghost var hidden := EmptyThemes[to := EditAll(Hide, generated)];
      EditTheme(to, Hide);
      assert themes == hidden;
      assert themes[from] == [];
      EditTheme(from, EnableTransparency);
      assert EditAll(EnableTransparency, []) == [];
    }

    /** `updateTransitionOpacities`: old-theme objects get opacity 1 - p, new-theme ones p. */
    method UpdateTransitionOpacities(p: real)
      requires Valid() && active
      modifies this`themes
      ensures Valid()
      ensures themes == Faded(old(themes), fromTheme.value, toTheme.value, p)
    {
      EditTheme(fromTheme.value, SetOpacity(1.0 - p));
      EditTheme(toTheme.value, SetOpacity(p));
    }

    /** `finishTransition`: the target theme becomes current, its objects are fully shown, and
        the transition record is reset (the target theme is kept). */
    method FinishTransition()
      requires Valid() && active
      modifies this
      ensures Valid()
      ensures currentTheme == old(toTheme).value
      ensures themes == old(themes)[old(toTheme).value := EditAll(Restore, old(themes)[old(toTheme).value])]
      ensures !active && progress == 0.0 && fromTheme == None && timeRemaining == 0.0
      ensures toTheme == old(toTheme) && duration == old(duration) && time == old(time)
    {
      currentTheme := toTheme.value;
      EditTheme(toTheme.value, Restore);
      active := false;
      progress := 0.0;
      fromTheme := None;
      timeRemaining := 0.0;
    }

    /** `updateThemeTransition`: count down, recompute the progress, fade, and finish on the
        first update whose remaining time is <= 0. */
    method UpdateThemeTransition(deltaTime: real)
      requires Valid() && active
      modifies this
      ensures Valid()
      ensures var tr := old(timeRemaining) - deltaTime;
        var p := Progress(tr, old(duration));
        var faded := Faded(old(themes), old(fromTheme).value, old(toTheme).value, p);
        if tr > 0.0 then
          && active && timeRemaining == tr && progress == p
          && fromTheme == old(fromTheme) && toTheme == old(toTheme) && currentTheme == old(currentTheme)
          && themes == faded
        else
          && !active && timeRemaining == 0.0 && progress == 0.0 && fromTheme == None
          && toTheme == old(toTheme) && currentTheme == old(toTheme).value
          && themes == faded[old(toTheme).value := EditAll(Restore, faded[old(toTheme).value])]
      ensures duration == old(duration) && time == old(time)
    {
      timeRemaining := timeRemaining - deltaTime;
      progress := 1.0 - timeRemaining / duration;
      progress := Min(1.0, Max(0.0, progress));
      UpdateTransitionOpacities(progress);
      if timeRemaining <= 0.0 {
        FinishTransition();
      }
    }

    /** `updateDreamscape` (this file's definition): store the time and advance an active
        transition. The current theme's own animation is not part of this model. */
    method UpdateDreamscape(deltaTime: real, gameTime: real)
      requires Valid()
      modifies this
      ensures Valid() && time == gameTime
      ensures duration == old(duration) && toTheme == old(toTheme)
      ensures !old(active) ==>
        && themes == old(themes) && currentTheme == old(currentTheme) && !active
        && progress == old(progress) && timeRemaining == old(timeRemaining)
        && fromTheme == old(fromTheme)
      ensures old(active) ==>
        var tr := old(timeRemaining) - deltaTime;
        var p := Progress(tr, old(duration));
        var faded := Faded(old(themes), old(fromTheme).value, old(toTheme).value, p);
        if tr > 0.0 then
          && active && timeRemaining == tr && progress == p
          && fromTheme == old(fromTheme) && currentTheme == old(currentTheme)
          && themes == faded
        else
          && !active && timeRemaining == 0.0 && progress == 0.0 && fromTheme == None
          && currentTheme == old(toTheme).value
          && themes == faded[old(toTheme).value := EditAll(Restore, faded[old(toTheme).value])]
    {
      time := gameTime;
      if active {
        UpdateThemeTransition(deltaTime);
      }
    }
  }
}
