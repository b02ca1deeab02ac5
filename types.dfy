/** The shared enumeration of src/types/index.ts. */
module Types {

  /** The panda's moods. The first twelve are the members `PandaMood` declares;
      `SLEEPY`, `SATISFIED` and `CURIOUS` are named by the mood analysis of
      src/services/tencentCloudService.ts but not declared by the enum (see
      `Declared`). */
  datatype PandaMood =
    | HAPPY | THINKING | WORKING | SLEEPING | EXCITED | CONFUSED | ANALYZING
    | PROBLEM_SOLVING | SUCCESS | ALERT | CALMING | ENERGETIC
    | SLEEPY | SATISFIED | CURIOUS

  /** The members the enum declares. */
  predicate Declared(m: PandaMood) {
    !(m.SLEEPY? || m.SATISFIED? || m.CURIOUS?)
  }

  /** What reading `PandaMood.X` yields: the member when the enum declares it,
      `undefined` otherwise. */
  datatype MoodValue = Member(mood: PandaMood) | Undefined

  function Lookup(m: PandaMood): (v: MoodValue)
    ensures v.Member? <==> Declared(m)
    ensures v.Member? ==> v.mood == m
  {
    if Declared(m) then Member(m) else Undefined
  }
}
