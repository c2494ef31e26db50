/**
 * The resume record held by the store (app.js:8-40) and the depth-1 merge
 * that `setState` performs on it (app.js:57).
 */
module ResumeState {
  import opened Wrappers

  /** The `personal` sub-record. It is an open record of string fields
      (fullName, email, phone, linkedin, website, location, headline): the
      input handler writes whatever field name a `data-model` path names. */
  type Personal = map<string, string>

  /** One entry of the `experience` list. */
  datatype Experience = Experience(
    id: int,
    company: string,
    role: string,
    location: string,
    startDate: string,
    endDate: string,
    description: string)

  /** One entry of the `education` list. */
  datatype Education = Education(
    id: int,
    school: string,
    degree: string,
    location: string,
    startDate: string,
    endDate: string)

  /** The whole resume: the four top-level keys of the state object. */
  datatype State = State(
    personal: Personal,
    experience: seq<Experience>,
    education: seq<Education>,
    skills: string)

  /** The hard-coded default `initialState`. */
  function Seed(): (r: State)
    ensures "fullName" in r.personal && r.personal["fullName"] == "John Doe"
    ensures "email" in r.personal && r.personal["email"] == "john.doe@example.com"
    ensures |r.experience| == 1 && r.experience[0].company == "Tech Corp"
    ensures |r.education| == 1 && r.skills == "JavaScript, React, Node.js"
  {
    State(
      map[
        "fullName" := "John Doe",
        "email" := "john.doe@example.com",
        "phone" := "+1 234 567 890",
        "linkedin" := "linkedin.com/in/johndoe",
        "website" := "johndoe.com",
        "location" := "New York, NY",
        "headline" := "Senior Software Engineer"],
      [Experience(1, "Tech Corp", "Senior Developer", "San Francisco, CA", "2020-01", "Present",
                  "\U{2022} Led a team of 5 developers\n\U{2022} Architected microservices")],
      [Education(1, "University of Tech", "B.S. CS", "Boston, MA", "2015", "2019")],
      "JavaScript, React, Node.js")
  }

  /** The top-level keys of the state object. */
  datatype Key = PersonalKey | ExperienceKey | EducationKey | SkillsKey

  /** The value stored under one top-level key. */
  datatype Value =
    | PersonalValue(personal: Personal)
    | ExperienceValue(experience: seq<Experience>)
    | EducationValue(education: seq<Education>)
    | SkillsValue(skills: string)

  /** `s[k]`: reading one top-level key of the state object. */
  function Get(s: State, k: Key): Value {
    match k
    case PersonalKey => PersonalValue(s.personal)
    case ExperienceKey => ExperienceValue(s.experience)
    case EducationKey => EducationValue(s.education)
    case SkillsKey => SkillsValue(s.skills)
  }

  /** The partial object passed to `setState`: each top-level key is either
      present, with the whole new value for that key, or absent. */
  datatype Patch = Patch(
    personal: Option<Personal>,
    experience: Option<seq<Experience>>,
    education: Option<seq<Education>>,
    skills: Option<string>)

  /** The patch with no keys, `{}`. */
  function EmptyPatch(): Patch {
    Patch(None, None, None, None)
  }

  /** The patch `{ personal: p }` built by the input handlers. */
  function PersonalPatch(p: Personal): Patch {
    Patch(Some(p), None, None, None)
  }

  /** `k in patch ? patch[k] : undefined`. */
  function PatchGet(p: Patch, k: Key): Option<Value> {
    match k
    case PersonalKey => if p.personal.Some? then Some(PersonalValue(p.personal.value)) else None
    case ExperienceKey => if p.experience.Some? then Some(ExperienceValue(p.experience.value)) else None
    case EducationKey => if p.education.Some? then Some(EducationValue(p.education.value)) else None
    case SkillsKey => if p.skills.Some? then Some(SkillsValue(p.skills.value)) else None
  }

  /** `{ ...s, ...p }`: every key present in the patch takes the patch's
      value wholesale, every other key keeps its old value. */
  function Merge(s: State, p: Patch): (r: State)
    ensures forall k :: Get(r, k) == if PatchGet(p, k).Some? then PatchGet(p, k).value else Get(s, k)
  {
    State(
      p.personal.GetOr(s.personal),
      p.experience.GetOr(s.experience),
      p.education.GetOr(s.education),
      p.skills.GetOr(s.skills))
  }

  /** `{ ...p, ...q }`: the patch equivalent to applying `p` then `q`. */
  function Then(p: Patch, q: Patch): Patch {
    Patch(
      if q.personal.Some? then q.personal else p.personal,
      if q.experience.Some? then q.experience else p.experience,
      if q.education.Some? then q.education else p.education,
      if q.skills.Some? then q.skills else p.skills)
  }

  /** Merging the same patch twice gives the state merging it once gives:
      there are no counters and no appends. */
  lemma MergeIdempotent(s: State, p: Patch)
    ensures Merge(Merge(s, p), p) == Merge(s, p)
  {
  }

  /** Merging `p` then `q` is merging their combination. */
  lemma MergeThen(s: State, p: Patch, q: Patch)
    ensures Merge(Merge(s, p), q) == Merge(s, Then(p, q))
  {
  }

  /** `setState({})` leaves the state as it was. */
  lemma MergeEmpty(s: State)
    ensures Merge(s, EmptyPatch()) == s
  {
  }

  /** Depth 2 is replaced, not merged: a `personal` record passed in the
      patch becomes the whole new `personal`, so a field it omits is gone
      even if the old state had it, and the other top-level keys stay. */
  lemma PersonalPatchReplacesRecord(s: State, q: Personal)
    ensures Merge(s, PersonalPatch(q)).personal == q
    ensures forall f :: f in s.personal && f !in q ==> f !in Merge(s, PersonalPatch(q)).personal
    ensures Merge(s, PersonalPatch(q)).experience == s.experience
    ensures Merge(s, PersonalPatch(q)).education == s.education
    ensures Merge(s, PersonalPatch(q)).skills == s.skills
  {
  }
}
