/**
 * The live preview, `renderPreview` (app.js:133-158), as a pure function of
 * the state: the text it interpolates into its template, in order. Markup
 * and separators are not modelled; every value is interpolated as is.
 */
module Preview {
  import opened ResumeState

  /** `${s.personal[name]}`: a missing field prints as "undefined". */
  function Field(p: Personal, name: string): (v: string)
    ensures name in p ==> v == p[name]
    ensures name !in p ==> v == "undefined"
  {
    if name in p then p[name] else "undefined"
  }

  /** The header: name, headline, then the contact line. */
  function Header(p: Personal): seq<string> {
    [Field(p, "fullName"), Field(p, "headline"), Field(p, "email"), Field(p, "phone"), Field(p, "location")]
  }

  /** The block for one experience entry. */
  function Job(e: Experience): seq<string> {
    [e.company, e.startDate, e.endDate, e.role, e.description]
  }

  /** `s.experience.map(...).join('')`. */
  function Jobs(es: seq<Experience>): seq<string> {
    if es == [] then [] else Job(es[0]) + Jobs(es[1..])
  }

  /** The interpolated values of the preview, in order. */
  function Fragments(s: State): seq<string> {
    Header(s.personal) + Jobs(s.experience)
  }

  /** The preview text: the fragments one after another. */
  function Concat(fs: seq<string>): string {
    if fs == [] then "" else fs[0] + Concat(fs[1..])
  }

  /** The preview text: every interpolated value occurs in it. */
  function Render(s: State): (r: string)
    ensures forall i :: 0 <= i < |Fragments(s)| ==> Contains(r, Fragments(s)[i])
  {
    ConcatContainsAll(Fragments(s));
    Concat(Fragments(s))
  }

  /** `w` occurs in `t` at offset `k`. */
  predicate OccursAt(w: string, t: string, k: nat) {
    k + |w| <= |t| && t[k..k + |w|] == w
  }

  predicate Contains(t: string, w: string) {
    exists k: nat | k <= |t| :: OccursAt(w, t, k)
  }

  /** Each entry contributes its own five values, in list order: the entry
      at index i fills positions 5*i to 5*i + 4 of the experience blocks. */
  lemma {:induction false} JobsAt(es: seq<Experience>, i: nat, j: nat)
    requires i < |es| && j < 5
    ensures |Jobs(es)| == 5 * |es|
    ensures Jobs(es)[5 * i + j] == Job(es[i])[j]
  {
    if i == 0 {
      JobsLength(es[1..]);
    } else {
      JobsAt(es[1..], i - 1, j);
    }
  }

  lemma {:induction false} JobsLength(es: seq<Experience>)
    ensures |Jobs(es)| == 5 * |es|
  {
    if es != [] {
      JobsLength(es[1..]);
    }
  }

  /** The preview lists the personal fields, then every experience entry in
      list order. */
  lemma FragmentsLayout(s: State)
    ensures |Fragments(s)| == 5 + 5 * |s.experience|
    ensures Fragments(s)[..5] == Header(s.personal)
    ensures forall i, j :: 0 <= i < |s.experience| && 0 <= j < 5 ==>
      Fragments(s)[5 + 5 * i + j] == Job(s.experience[i])[j]
  {
    JobsLength(s.experience);
    forall i, j | 0 <= i < |s.experience| && 0 <= j < 5
      ensures Fragments(s)[5 + 5 * i + j] == Job(s.experience[i])[j]
    {
      JobsAt(s.experience, i, j);
    }
  }

  /** Education and skills do not appear in the preview. */
  lemma PreviewIgnoresEducationAndSkills(s: State, ed: seq<Education>, skills: string)
    ensures Render(s.(education := ed, skills := skills)) == Render(s)
  {
  }

  /** Every fragment appears in the rendered text. */
  lemma {:induction false} ConcatContains(fs: seq<string>, i: nat)
    requires i < |fs|
    ensures Contains(Concat(fs), fs[i])
  {
    var t := Concat(fs);
    if i == 0 {
      assert t[..|fs[0]|] == fs[0];
      assert OccursAt(fs[0], t, 0);
    } else {
      var w := fs[i];
      assert fs[1..][i - 1] == w;
      ConcatContains(fs[1..], i - 1);
      var rest := Concat(fs[1..]);
      var k: nat :| k <= |rest| && OccursAt(w, rest, k);
      assert t == fs[0] + rest;
      assert t[|fs[0]| + k..|fs[0]| + k + |w|] == rest[k..k + |w|];
      assert OccursAt(w, t, |fs[0]| + k);
    }
  }

  lemma ConcatContainsAll(fs: seq<string>)
    ensures forall i :: 0 <= i < |fs| ==> Contains(Concat(fs), fs[i])
  {
    forall i | 0 <= i < |fs|
      ensures Contains(Concat(fs), fs[i])
    {
      ConcatContains(fs, i);
    }
  }

  /** Every personal field the preview shows appears in its text. */
  lemma PreviewShowsPersonal(s: State, name: string)
    requires name in {"fullName", "headline", "email", "phone", "location"} && name in s.personal
    ensures Contains(Render(s), s.personal[name])
  {
    var fs := Fragments(s);
    var i := if name == "fullName" then 0 else if name == "headline" then 1
             else if name == "email" then 2 else if name == "phone" then 3 else 4;
    assert fs[i] == s.personal[name];
    ConcatContains(fs, i);
  }

  /** The seed state's preview shows its name and email. */
  lemma SeedPreview()
    ensures Contains(Render(Seed()), "John Doe")
    ensures Contains(Render(Seed()), "john.doe@example.com")
  {
    PreviewShowsPersonal(Seed(), "fullName");
    PreviewShowsPersonal(Seed(), "email");
  }
}
