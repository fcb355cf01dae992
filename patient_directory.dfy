/** The patient directory: the enrolled patients, the search box that filters
    them case-insensitively by name, ID or diagnosis, the active-patient count,
    the avatar initials, and the colour of the risk column. */
module PatientDirectory {

  import opened Sequences
  import opened RiskBands

  datatype Trend = Improving | Stable | Critical

  datatype Status = Active | Discharged

  datatype Patient = Patient(
    id: string,
    name: string,
    age: int,
    diagnosis: string,
    riskScore: int,
    trend: Trend,
    status: Status)

  /** The enrolled patients, in the order the table lists them. */
  const Patients: seq<Patient> := [P1, P2, P3, P4, P5, P6, P7]

  const P1: Patient := Patient("ASD-2024-0047", "Marcus T.", 4, "ASD Level 2", 42, Improving, Active)
  const P2: Patient := Patient("ASD-2024-0031", "Lily W.", 6, "ASD Level 1", 28, Improving, Active)
  const P3: Patient := Patient("ASD-2023-0098", "Ethan P.", 5, "ASD Level 2", 58, Stable, Active)
  const P4: Patient := Patient("ASD-2024-0062", "Aisha M.", 3, "ASD Level 3", 71, Critical, Active)
  const P5: Patient := Patient("ASD-2023-0077", "Noah B.", 7, "ASD Level 1", 22, Improving, Active)
  const P6: Patient := Patient("ASD-2024-0015", "Sophie C.", 4, "ASD Level 2", 45, Stable, Active)
  const P7: Patient := Patient("ASD-2022-0143", "Jaylen R.", 9, "ASD Level 1", 18, Improving, Discharged)

  // ---------------------------------------------------------------------------
  // Case folding and substring search

  predicate IsUpper(c: char)
  {
    'A' <= c <= 'Z'
  }

  /** `toLowerCase` on one character, for the ASCII letters. */
  function LowerChar(c: char): (d: char)
    ensures !IsUpper(d)
    ensures IsUpper(c) ==> d as int == c as int + 32
    ensures !IsUpper(c) ==> d == c
  {
    if IsUpper(c) then (c as int + 32) as char else c
  }

  function Lower(s: string): (r: string)
    ensures |r| == |s|
    ensures forall i :: 0 <= i < |s| ==> r[i] == LowerChar(s[i])
  {
    seq(|s|, i requires 0 <= i < |s| => LowerChar(s[i]))
  }

  /** `s.includes(q)`: `q` occurs in `s` as a contiguous block (the empty `q` always does). */
  predicate Includes(s: string, q: string)
    decreases |s|
  {
    q <= s || (s != [] && Includes(s[1..], q))
  }

  /** `q` occurs in `s` starting at position `i`. */
  predicate OccursAt(s: string, q: string, i: int)
  {
    0 <= i && i + |q| <= |s| && s[i..i + |q|] == q
  }

  lemma {:induction false} IncludesIff(s: string, q: string)
    ensures Includes(s, q) <==> exists i :: OccursAt(s, q, i)
    decreases |s|
  {
    if q <= s {
      assert OccursAt(s, q, 0);
    } else if s == [] {
      assert forall i :: !OccursAt(s, q, i);
    } else {
      IncludesIff(s[1..], q);
      assert OccursAt(s, q, 0) ==> q <= s;
      if exists i :: OccursAt(s[1..], q, i) {
        var i :| OccursAt(s[1..], q, i);
        assert s[i + 1..i + 1 + |q|] == s[1..][i..i + |q|];
        assert OccursAt(s, q, i + 1);
      }
      if exists i :: OccursAt(s, q, i) {
        var i :| OccursAt(s, q, i);
        assert s[1..][i - 1..i - 1 + |q|] == s[i..i + |q|];
        assert OccursAt(s[1..], q, i - 1);
      }
    }
  }

  /** A block of a block of `s` is a block of `s`. */
  lemma IncludesTransitive(s: string, m: string, q: string)
    requires Includes(s, m) && Includes(m, q)
    ensures Includes(s, q)
  {
    IncludesIff(s, m);
    IncludesIff(m, q);
    var i :| OccursAt(s, m, i);
    var j :| OccursAt(m, q, j);
    forall k | 0 <= k < |q|
      ensures s[i + j..i + j + |q|][k] == q[k]
    {
      assert s[i + j + k] == s[i..i + |m|][j + k];
    }
    assert s[i + j..i + j + |q|] == q;
    assert OccursAt(s, q, i + j);
    IncludesIff(s, q);
  }

  /** Lower-casing both sides keeps a block a block. */
  lemma LowerKeepsIncludes(s: string, q: string)
    requires Includes(s, q)
    ensures Includes(Lower(s), Lower(q))
  {
    IncludesIff(s, q);
    var i :| OccursAt(s, q, i);
    assert Lower(s)[i..i + |q|] == Lower(q);
    assert OccursAt(Lower(s), Lower(q), i);
    IncludesIff(Lower(s), Lower(q));
  }

  // ---------------------------------------------------------------------------
  // The search box

  /** The row test: the lower-cased query occurs in the lower-cased name, ID or diagnosis. */
  predicate Matches(p: Patient, lowerQuery: string)
  {
    Includes(Lower(p.name), lowerQuery)
      || Includes(Lower(p.id), lowerQuery)
      || Includes(Lower(p.diagnosis), lowerQuery)
  }

  function KeepsQuery(lowerQuery: string): Patient -> bool
  {
    (p: Patient) => Matches(p, lowerQuery)
  }

  /** The rows of `ps` shown for the search text `query`. */
  function SearchIn(ps: seq<Patient>, query: string): (r: seq<Patient>)
    ensures forall p :: p in r ==> p in ps && Matches(p, Lower(query))
    ensures forall p :: p in ps && Matches(p, Lower(query)) ==> p in r
  {
    Filter(ps, KeepsQuery(Lower(query)))
  }

  /** The table body for the search text `query`. */
  function Search(query: string): seq<Patient>
  {
    SearchIn(Patients, query)
  }

  /** The empty search (the initial state of the box) lists every patient, in order. */
  lemma SearchEmptyKeepsAll(ps: seq<Patient>)
    ensures SearchIn(ps, "") == ps
  {
    forall p | p in ps
      ensures KeepsQuery(Lower(""))(p)
    {
      assert Lower("") == [];
      assert [] <= Lower(p.name);
    }
    FilterKeepsAll(ps, KeepsQuery(Lower("")));
  }

  /** Searching only removes rows; the rest keep the table's order. */
  lemma SearchIsSubsequence(ps: seq<Patient>, query: string)
    ensures IsSubsequence(SearchIn(ps, query), ps)
  {
    FilterIsSubsequence(ps, KeepsQuery(Lower(query)));
  }

  /** Two characters that are equal or the same ASCII letter in the other case. */
  predicate SameLetterIgnoringCase(a: char, b: char)
  {
    a == b || (IsUpper(a) && b as int == a as int + 32) || (IsUpper(b) && a as int == b as int + 32)
  }

  predicate SameIgnoringCase(s: string, t: string)
  {
    |s| == |t| && forall i :: 0 <= i < |s| ==> SameLetterIgnoringCase(s[i], t[i])
  }

  /** Queries that differ only in letter case show the same rows. */
  lemma SearchCaseInsensitive(ps: seq<Patient>, q1: string, q2: string)
    requires SameIgnoringCase(q1, q2)
    ensures SearchIn(ps, q1) == SearchIn(ps, q2)
  {
    assert Lower(q1) == Lower(q2) by {
      forall i | 0 <= i < |q1|
        ensures Lower(q1)[i] == Lower(q2)[i]
      {
        assert SameLetterIgnoringCase(q1[i], q2[i]);
      }
    }
  }

  /** Typing more (a query containing the previous one) can only narrow the rows. */
  lemma SearchNarrowing(ps: seq<Patient>, q: string, longer: string)
    requires Includes(longer, q)
    ensures IsSubsequence(SearchIn(ps, longer), SearchIn(ps, q))
  {
    LowerKeepsIncludes(longer, q);
    var lq, ll := Lower(q), Lower(longer);
    forall p | p in ps && KeepsQuery(ll)(p)
      ensures KeepsQuery(lq)(p)
    {
      if Includes(Lower(p.name), ll) {
        IncludesTransitive(Lower(p.name), ll, lq);
      } else if Includes(Lower(p.id), ll) {
        IncludesTransitive(Lower(p.id), ll, lq);
      } else {
        IncludesTransitive(Lower(p.diagnosis), ll, lq);
      }
    }
    FilterStronger(ps, KeepsQuery(ll), KeepsQuery(lq));
  }

  // ---------------------------------------------------------------------------
  // The header counts

  function IsActive(p: Patient): bool
  {
    p.status == Active
  }

  /** The number of patients whose status is active. */
  function ActiveCount(ps: seq<Patient>): (n: nat)
    ensures n <= |ps|
  {
    |Filter(ps, IsActive)|
  }

  /** The header reads "7 total patients · 6 active": all but the discharged one. */
  lemma SeedCounts()
    ensures |Patients| == 7
    ensures ActiveCount(Patients) == 6
  {
    FilterPrefix(Patients, IsActive, 6);
  }

  // ---------------------------------------------------------------------------
  // Avatar initials

  /** `s.split(" ")`: the pieces between single spaces (two adjacent spaces
      leave an empty piece; there is always one more piece than spaces). */
  function Split(s: string): (ws: seq<string>)
    ensures |ws| >= 1
    ensures forall w :: w in ws ==> ' ' !in w
  {
    if s == [] then [[]]
    else
      var rest := Split(s[1..]);
      if s[0] == ' ' then [[]] + rest else [[s[0]] + rest[0]] + rest[1..]
  }

  /** `ws.join(" ")`. */
  function Join(ws: seq<string>): string
    requires |ws| >= 1
  {
    if |ws| == 1 then ws[0] else ws[0] + " " + Join(ws[1..])
  }

  /** Joining the pieces with single spaces gives back the text that was split. */
  lemma {:induction false} JoinSplit(s: string)
    ensures Join(Split(s)) == s
  {
    if s != [] {
      JoinSplit(s[1..]);
      var rest := Split(s[1..]);
      if s[0] == ' ' {
        assert Split(s)[1..] == rest;
      } else {
        assert Split(s)[1..] == rest[1..];
        if |rest| > 1 {
          assert Join(rest) == rest[0] + " " + Join(rest[1..]);
        }
      }
    }
  }

  /** `.map(n => n[0]).join("")`: the first character of each piece; an empty
      piece gives `undefined`, which `join` writes as nothing. */
  function FirstChars(ws: seq<string>): string
  {
    if ws == [] then [] else (if ws[0] == [] then [] else [ws[0][0]]) + FirstChars(ws[1..])
  }

  function Initials(name: string): string
  {
    FirstChars(Split(name))
  }

  /** Independent description of the initials: every non-space character that
      starts the text or follows a space, in order. */
  function WordStarts(s: string, afterSpace: bool): (r: string)
    ensures ' ' !in r
  {
    if s == [] then []
    else (if s[0] != ' ' && afterSpace then [s[0]] else []) + WordStarts(s[1..], s[0] == ' ')
  }

  lemma {:induction false} InitialsAreWordStarts(s: string)
    ensures FirstChars(Split(s)) == WordStarts(s, true)
    ensures FirstChars(Split(s)[1..]) == WordStarts(s, false)
  {
    if s != [] {
      InitialsAreWordStarts(s[1..]);
      var rest := Split(s[1..]);
      if s[0] == ' ' {
        assert Split(s)[1..] == rest;
      } else {
        assert Split(s)[1..] == rest[1..];
      }
    }
  }

  /** The initials are the characters that begin the space-separated words of the name. */
  lemma InitialsSpec(name: string)
    ensures Initials(name) == WordStarts(name, true)
  {
    InitialsAreWordStarts(name);
  }

  /** Inside a word nothing is taken, so a space-free block can be skipped. */
  lemma {:induction false} SkipWord(w: string, rest: string)
    requires ' ' !in w
    ensures WordStarts(w + rest, false) == WordStarts(rest, false)
  {
    if w == [] {
      assert w + rest == rest;
    } else {
      assert w[0] in w && ' ' !in w[1..];
      assert w + rest == [w[0]] + (w[1..] + rest);
      WordStartsCons(w[0], w[1..] + rest, false);
      SkipWord(w[1..], rest);
    }
  }

  lemma WordStartsCons(c: char, rest: string, afterSpace: bool)
    ensures WordStarts([c] + rest, afterSpace)
         == (if c != ' ' && afterSpace then [c] else []) + WordStarts(rest, c == ' ')
  {
    assert ([c] + rest)[1..] == rest;
  }

  /** A name of two words, such as "Marcus T.", gives the first letter of each ("MT"). */
  lemma InitialsOfTwoWords(first: string, last: string)
    requires first != [] && last != [] && ' ' !in first && ' ' !in last
    ensures Initials(first + " " + last) == [first[0], last[0]]
  {
    var name := first + " " + last;
    InitialsSpec(name);
    assert first[0] in first && last[0] in last;
    var rest := [' '] + last;
    assert name == [first[0]] + (first[1..] + rest);
    WordStartsCons(first[0], first[1..] + rest, true);
    SkipWord(first[1..], rest);
    WordStartsCons(' ', last, false);
    assert last == [last[0]] + last[1..];
    WordStartsCons(last[0], last[1..], true);
    SkipWord(last[1..], []);
    assert last[1..] + [] == last[1..];
  }

  // ---------------------------------------------------------------------------
  // The risk column

  /** The colour class of the risk score's text. */
  function RiskColor(score: int): string
  {
    if score < 30 then "text-emerald-600" else if score < 60 then "text-amber-600" else "text-red-600"
  }

  /** The colour class of the risk score's bar. */
  function RiskBg(score: int): string
  {
    if score < 30 then "bg-emerald-500" else if score < 60 then "bg-amber-500" else "bg-red-500"
  }

  /** The colour family that each risk band is drawn in. */
  function Hue(b: Band): string
  {
    match b
    case Low => "emerald"
    case Moderate => "amber"
    case High => "red"
  }

  /** The score's text is drawn in the hue of its risk band... */
  lemma RiskColorFollowsBand(score: int)
    ensures RiskColor(score) == "text-" + Hue(BandOf(score)) + "-600"
  {
  }

  /** ...and so is its bar. */
  lemma RiskBgFollowsBand(score: int)
    ensures RiskBg(score) == "bg-" + Hue(BandOf(score)) + "-500"
  {
  }

  /** The three text colours, and their thresholds, in both directions. */
  lemma RiskColorThresholds(score: int)
    ensures RiskColor(score) == "text-emerald-600" <==> score < 30
    ensures RiskColor(score) == "text-amber-600" <==> 30 <= score < 60
    ensures RiskColor(score) == "text-red-600" <==> 60 <= score
  {
  }

  /** Text and bar always select the same band: equal text colours mean equal bar colours. */
  lemma RiskColorAgreesWithBg(s1: int, s2: int)
    ensures RiskColor(s1) == RiskColor(s2) <==> RiskBg(s1) == RiskBg(s2)
    ensures RiskColor(s1) == RiskColor(s2) <==> BandOf(s1) == BandOf(s2)
  {
  }

  /** The trend badge's text. */
  function TrendLabel(t: Trend): string
  {
    match t
    case Improving => "Improving"
    case Stable => "Stable"
    case Critical => "Needs Attention"
  }

  lemma TrendLabelsDistinct(t1: Trend, t2: Trend)
    ensures TrendLabel(t1) == TrendLabel(t2) <==> t1 == t2
  {
  }

  /** Discharged patients are drawn dimmed. */
  predicate Dimmed(p: Patient)
  {
    p.status == Discharged
  }

  /** Exactly the patients the header does not count as active are dimmed, so
      the active count and the dimmed rows together make up the directory. */
  lemma DimmedAreInactive(ps: seq<Patient>)
    ensures forall p :: Dimmed(p) <==> !IsActive(p)
    ensures forall p :: p in Filter(ps, Not(IsActive)) <==> p in ps && Dimmed(p)
    ensures ActiveCount(ps) + |Filter(ps, Not(IsActive))| == |ps|
  {
    FilterComplementLength(ps, IsActive);
  }

  /** Of the seeded patients only the last, Jaylen R., is dimmed. */
  lemma SeedDimmed()
    ensures forall i :: 0 <= i < |Patients| ==> (Dimmed(Patients[i]) <==> i == 6)
  {
  }
}
