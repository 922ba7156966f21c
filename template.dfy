/**
 * Python's `str.format` with named placeholders, as used by the config and
 * shell templates: a template is a sequence of literal text and `{name}`
 * holes, and rendering fails with the name of the first unbound hole (the
 * KeyError Python raises). Bindings the template does not use are ignored.
 */
module Templates {
  import opened Wrappers

  datatype Piece = Lit(text: string) | Hole(name: string)

  type Template = seq<Piece>

  type Bindings = map<string, string>

  /** The placeholder names a template needs. */
  function Holes(t: Template): set<string>
  {
    set i | 0 <= i < |t| && t[i].Hole? :: t[i].name
  }

  /** Rendering; a missing binding is reported by name. */
  function Render(t: Template, b: Bindings): (r: Result<string, string>)
    ensures r.Failure? ==> r.error in Holes(t) && r.error !in b
    decreases |t|
  {
    if t == [] then Success("")
    else
      var rest := Render(t[1..], b);
      HolesCons(t);
      match t[0]
      case Lit(s) => if rest.Failure? then rest else Success(s + rest.value)
      case Hole(n) =>
        if n !in b then Failure(n)
        else if rest.Failure? then rest
        else Success(b[n] + rest.value)
  }

  /** The placeholders of a non-empty template: those of its first piece and of the rest. */
  lemma HolesCons(t: Template)
    requires t != []
    ensures Holes(t) == (if t[0].Hole? then {t[0].name} else {}) + Holes(t[1..])
  {
    forall n | n in Holes(t) ensures n in (if t[0].Hole? then {t[0].name} else {}) + Holes(t[1..]) {
      var i :| 0 <= i < |t| && t[i].Hole? && t[i].name == n;
      if i > 0 { assert t[1..][i - 1] == t[i]; }
    }
    forall n | n in Holes(t[1..]) ensures n in Holes(t) {
      var i :| 0 <= i < |t[1..]| && t[1..][i].Hole? && t[1..][i].name == n;
      assert t[i + 1] == t[1..][i];
    }
  }

  /** A failed rendering names the first hole, in template order, that has no binding. */
  lemma {:induction false} RenderFailsAtFirst(t: Template, b: Bindings)
    ensures Render(t, b).Failure? ==>
              exists i :: 0 <= i < |t| && t[i] == Hole(Render(t, b).error)
                && forall j :: 0 <= j < i && t[j].Hole? ==> t[j].name in b
    decreases |t|
  {
    var r := Render(t, b);
    if t != [] && r.Failure? {
      if t[0].Hole? && t[0].name !in b {
        assert t[0] == Hole(r.error);
      } else {
        var rest := t[1..];
        assert Render(rest, b) == r;
        RenderFailsAtFirst(rest, b);
        var k :| 0 <= k < |rest| && rest[k] == Hole(r.error)
                 && forall j :: 0 <= j < k && rest[j].Hole? ==> rest[j].name in b;
        assert t[k + 1] == Hole(r.error);
        forall j | 0 <= j < k + 1 && t[j].Hole? ensures t[j].name in b {
          if j > 0 { assert t[j] == rest[j - 1]; }
        }
      }
    }
  }

  /** Rendering succeeds exactly when every placeholder is bound. */
  lemma {:induction false} RenderSucceedsIff(t: Template, b: Bindings)
    ensures Render(t, b).Success? <==> Holes(t) <= b.Keys
    decreases |t|
  {
    if t != [] {
      RenderSucceedsIff(t[1..], b);
      HolesCons(t);
    }
  }

  /** Only the bindings of the template's own placeholders matter. */
  lemma {:induction false} RenderIgnoresUnused(t: Template, b: Bindings, b': Bindings)
    requires forall n :: n in Holes(t) ==> (n in b <==> n in b') && (n in b ==> b[n] == b'[n])
    ensures Render(t, b) == Render(t, b')
    decreases |t|
  {
    if t != [] {
      HolesCons(t);
      RenderIgnoresUnused(t[1..], b, b');
    }
  }

  /** Rendering a concatenation of templates renders each part. */
  lemma {:induction false} RenderAppend(t: Template, u: Template, b: Bindings)
    requires Render(t, b).Success? && Render(u, b).Success?
    ensures Render(t + u, b) == Success(Render(t, b).value + Render(u, b).value)
    decreases |t|
  {
    if t == [] {
      assert t + u == u;
      assert "" + Render(u, b).value == Render(u, b).value;
    } else {
      assert (t + u)[0] == t[0];
      assert (t + u)[1..] == t[1..] + u;
      assert Render(t[1..], b).Success?;
      RenderAppend(t[1..], u, b);
      var head := match t[0] case Lit(s) => s case Hole(n) => b[n];
      assert Render(t, b).value == head + Render(t[1..], b).value;
      assert Render(t + u, b).Success? && Render(t + u, b).value == head + Render(t[1..] + u, b).value;
      assert head + (Render(t[1..], b).value + Render(u, b).value) == (head + Render(t[1..], b).value) + Render(u, b).value;
    }
  }
}
