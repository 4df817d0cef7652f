/**
 * The UI-element registries: one drawable per UI class, as kept by the
 * Android NuklearUIRenderer (NativeActivityTest/app/src/main/java/io/snower/
 * game/client/NuklearUIRenderer.kt) and by the desktop Window
 * (src/main/kotlin/com/peinbol/client/Window.kt, in module ClientWindow).
 *
 * A UI class (Kotlin's Class<T> key) is named by a string; drawables are
 * objects compared by identity.  The registry rules are defined once here,
 * on maps; the two classes apply them to their own field.
 */
module UiRegistry {
  import opened Wrappers

  type ClassName = string

  /** A UI element instance (HealthUI, ChatUI, ...); its drawing is outside the model. */
  class Drawable {
    constructor () {}
  }

  /** registerUIElement: fails when the class already has a drawable. */
  function Register(m: map<ClassName, Drawable>, c: ClassName, d: Drawable): (r: Result<map<ClassName, Drawable>, string>)
    ensures r.Ok? <==> c !in m
    ensures r.Ok? ==> (c in r.value && r.value[c] == d
      && r.value.Keys == m.Keys + {c}
      && forall k :: k in m ==> r.value[k] == m[k])
  {
    if c in m then Err("class already has a drawable registered. Remove it first.")
    else Ok(m[c := d])
  }

  /** unregisterUIElement: fails when the class has no drawable. */
  function Unregister(m: map<ClassName, Drawable>, c: ClassName): (r: Result<map<ClassName, Drawable>, string>)
    ensures r.Ok? <==> c in m
    ensures r.Ok? ==> (c !in r.value
      && r.value.Keys == m.Keys - {c}
      && forall k :: k in r.value ==> r.value[k] == m[k])
  {
    if c !in m then Err("class doesn't have a drawable registered.")
    else Ok(m - {c})
  }

  /** getUIElement: the registered drawable, or null. */
  function Get(m: map<ClassName, Drawable>, c: ClassName): Option<Drawable>
  {
    if c in m then Some(m[c]) else None
  }

  /** After a successful register, get returns the drawable; every other class answers as before. */
  lemma GetAfterRegister(m: map<ClassName, Drawable>, c: ClassName, d: Drawable, other: ClassName)
    requires Register(m, c, d).Ok?
    ensures Get(Register(m, c, d).value, c) == Some(d)
    ensures other != c ==> Get(Register(m, c, d).value, other) == Get(m, other)
  {
  }

  /** After a successful unregister, get returns null; every other class answers as before. */
  lemma GetAfterUnregister(m: map<ClassName, Drawable>, c: ClassName, other: ClassName)
    requires Unregister(m, c).Ok?
    ensures Get(Unregister(m, c).value, c) == None
    ensures other != c ==> Get(Unregister(m, c).value, other) == Get(m, other)
  {
  }

  /** Registering a fresh class and unregistering it again restores the registry. */
  lemma RegisterUnregister(m: map<ClassName, Drawable>, c: ClassName, d: Drawable)
    requires c !in m
    ensures Register(m, c, d).Ok? && Unregister(Register(m, c, d).value, c) == Ok(m)
  {
    assert m[c := d] - {c} == m;
  }

  /** A class cannot be registered twice without unregistering it in between. */
  lemma RegisterTwiceFails(m: map<ClassName, Drawable>, c: ClassName, d: Drawable, e: Drawable)
    requires c !in m
    ensures Register(Register(m, c, d).value, c, e).Err?
  {
  }

  /** An unregistered class answers null. */
  lemma GetUnregistered(m: map<ClassName, Drawable>, c: ClassName)
    ensures Get(m, c) == None <==> c !in m
  {
  }

  const DEFAULT_WIDTH := 800
  const DEFAULT_HEIGHT := 600

  /** The Android UI renderer: the drawable registry and the screen resolution. */
  class NuklearUIRenderer {
    var uiDrawables: map<ClassName, Drawable>
    var width: int
    var height: int

    constructor ()
      ensures uiDrawables == map[] && width == DEFAULT_WIDTH && height == DEFAULT_HEIGHT
    {
      uiDrawables := map[];
      width := 800;
      height := 600;
    }

    method RegisterUIElement(clazz: ClassName, drawable: Drawable) returns (r: Result<(), string>)
      modifies this
      ensures width == old(width) && height == old(height)
      ensures r.Ok? <==> Register(old(uiDrawables), clazz, drawable).Ok?
      ensures uiDrawables == if r.Ok? then Register(old(uiDrawables), clazz, drawable).value else old(uiDrawables)
    {
      var reg := Register(uiDrawables, clazz, drawable);
      if reg.Err? {
        return Err(reg.error);
      }
      uiDrawables := reg.value;
      r := Ok(());
    }

    function GetUIElement(clazz: ClassName): Option<Drawable>
      reads this
    {
      Get(uiDrawables, clazz)
    }

    method UnregisterUIElement(clazz: ClassName) returns (r: Result<(), string>)
      modifies this
      ensures width == old(width) && height == old(height)
      ensures r.Ok? <==> Unregister(old(uiDrawables), clazz).Ok?
      ensures uiDrawables == if r.Ok? then Unregister(old(uiDrawables), clazz).value else old(uiDrawables)
    {
      var unreg := Unregister(uiDrawables, clazz);
      if unreg.Err? {
        return Err(unreg.error);
      }
      uiDrawables := unreg.value;
      r := Ok(());
    }

    method SetResolution(width: int, height: int)
      modifies this
      ensures this.width == width && this.height == height && uiDrawables == old(uiDrawables)
    {
      this.width := width;
      this.height := height;
    }
  }
}
