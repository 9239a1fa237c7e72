/** The four lifecycle action types of a factory, `<TYPE>_STARTED`,
    `<TYPE>_SUCCEEDED`, `<TYPE>_FAILED` and `<TYPE>_ENDED`, and the way back
    from an action type to the phase it announces. */
module ActionTypes {
  import opened JsValues

  datatype Phase = Started | Succeeded | Failed | Ended

  function Suffix(p: Phase): string {
    match p
    case Started => "_STARTED"
    case Succeeded => "_SUCCEEDED"
    case Failed => "_FAILED"
    case Ended => "_ENDED"
  }

  /** The template string `${type}_<PHASE>`. */
  function TypeOf(name: string, p: Phase): (t: string)
    ensures |t| == |name| + |Suffix(p)|
    ensures t[..|name|] == name && t[|name|..] == Suffix(p)
  {
    name + Suffix(p)
  }

  /** The phase that an action type announces for the factory called `name`,
      as a reducer that matches on the four types would find it. */
  function PhaseOf(name: string, t: string): (r: Option<Phase>)
    ensures r.Some? ==> t == TypeOf(name, r.value)
  {
    if t == TypeOf(name, Started) then Some(Started)
    else if t == TypeOf(name, Succeeded) then Some(Succeeded)
    else if t == TypeOf(name, Failed) then Some(Failed)
    else if t == TypeOf(name, Ended) then Some(Ended)
    else None
  }

  /** No suffix is a tail of another one. */
  lemma {:induction false} SuffixNotTail(p: Phase, q: Phase)
    requires p != q && |Suffix(p)| <= |Suffix(q)|
    ensures Suffix(q)[|Suffix(q)| - |Suffix(p)|..] != Suffix(p)
  {
    var sp, sq := Suffix(p), Suffix(q);
    var k := |sq| - |sp|;
    // The suffixes have pairwise different lengths, so p != q means a
    // strictly shorter tail, and the tails are told apart by one character.
    match (p, q)
    case (Started, Succeeded) => assert sq[k + 1] != sp[1];
    case (Failed, Started) => assert sq[k + 1] != sp[1];
    case (Failed, Succeeded) => assert sq[k + 1] != sp[1];
    case (Ended, Started) => assert sq[k + 1] != sp[1];
    case (Ended, Succeeded) => assert sq[k] != sp[0];
    case (Ended, Failed) => assert sq[k + 1] != sp[1];
    case _ =>
  }

  /** Two factories, or two phases of one factory, never produce the same
      action type unless both the name and the phase agree: no suffix is a
      tail of another, so the suffix and then the prefix are determined. */
  lemma {:induction false} TypeOfInjective(n1: string, p1: Phase, n2: string, p2: Phase)
    requires TypeOf(n1, p1) == TypeOf(n2, p2)
    ensures n1 == n2 && p1 == p2
  {
    var t := TypeOf(n1, p1);
    var s1, s2 := Suffix(p1), Suffix(p2);
    if p1 != p2 {
      if |s1| <= |s2| {
        assert t[|t| - |s2|..][|s2| - |s1|..] == t[|t| - |s1|..];
        SuffixNotTail(p1, p2);
      } else {
        assert t[|t| - |s1|..][|s1| - |s2|..] == t[|t| - |s2|..];
        SuffixNotTail(p2, p1);
      }
    }
  }

  /** Matching one of a factory's four types gives back the phase it was
      made for. */
  lemma {:induction false} PhaseOfRoundTrip(name: string, p: Phase)
    ensures PhaseOf(name, TypeOf(name, p)) == Some(p)
  {
    forall q | q != p ensures TypeOf(name, p) != TypeOf(name, q) {
      if TypeOf(name, p) == TypeOf(name, q) {
        TypeOfInjective(name, p, name, q);
      }
    }
  }

  /** An action type matches a phase if and only if it is that phase's type;
      anything else matches none of them. */
  lemma {:induction false} PhaseOfMatches(name: string, p: Phase, t: string)
    ensures PhaseOf(name, t) == Some(p) <==> t == TypeOf(name, p)
  {
    PhaseOfRoundTrip(name, p);
  }
}
