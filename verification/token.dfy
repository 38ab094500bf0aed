/**
 * The setup-token step of `SetupEnvironmentIntentHandler`: reuse the code stored for the user or
 * mint a six-character uppercase code, spell it out character by character, and persist it.
 */
module Token {
  import opened Wrappers
  import opened Backend

  const CodeLength := 6

  /** The `casing` argument of `randomAlphanumeric`. */
  datatype Casing = Uppercase | Lowercase

  const Digits := "0123456789"
  const UpperLetters := "ABCDEFGHIJKLMNOPQRSTUVWXYZ"
  const LowerLetters := "abcdefghijklmnopqrstuvwxyz"

  predicate IsUpperAlphanumeric(c: char) {
    'A' <= c <= 'Z' || '0' <= c <= '9'
  }

  predicate IsLowerAlphanumeric(c: char) {
    'a' <= c <= 'z' || '0' <= c <= '9'
  }

  /** The characters a code of the given casing is drawn from. */
  function Alphabet(casing: Option<Casing>): (a: string)
    ensures |a| > 0
    ensures casing == Some(Uppercase) ==> forall i :: 0 <= i < |a| ==> IsUpperAlphanumeric(a[i])
    ensures casing == Some(Lowercase) ==> forall i :: 0 <= i < |a| ==> IsLowerAlphanumeric(a[i])
    ensures forall i :: 0 <= i < |a| ==> IsUpperAlphanumeric(a[i]) || IsLowerAlphanumeric(a[i])
  {
    match casing
    case Some(Uppercase) => UpperLetters + Digits
    case Some(Lowercase) => LowerLetters + Digits
    case None => UpperLetters + LowerLetters + Digits
  }

  /**
   * `randomAlphanumeric(length, casing)`. The randomness is the `entropy` parameter; only the
   * declared promise is relied on: `length` alphanumeric characters of the requested casing.
   */
  function RandomAlphanumeric(length: nat, casing: Option<Casing>, entropy: seq<nat>): (s: string)
    ensures |s| == length
    ensures casing == Some(Uppercase) ==> forall i :: 0 <= i < |s| ==> IsUpperAlphanumeric(s[i])
    ensures casing == Some(Lowercase) ==> forall i :: 0 <= i < |s| ==> IsLowerAlphanumeric(s[i])
  {
    var a := Alphabet(casing);
    seq(length, i requires 0 <= i < length => a[(if i < |entropy| then entropy[i] else 0) % |a|])
  }

  /** A code the setup step may mint: six uppercase letters or digits. */
  predicate IsFreshCode(code: string) {
    |code| == CodeLength && forall i :: 0 <= i < |code| ==> IsUpperAlphanumeric(code[i])
  }

  const SpellOpen := "<say-as interpret-as='spell-out'>"
  const SpellClose := "</say-as><break strength='strong'/>"
  /** Length of one spelled-out character. */
  const SegmentLength := |SpellOpen| + 1 + |SpellClose|

  /** The SSML that spells out one character and pauses. */
  function Segment(c: char): (seg: string)
    ensures |seg| == SegmentLength
  {
    SpellOpen + [c] + SpellClose
  }

  /** The spoken form of a code: one segment per character, in order. */
  function SpellOut(code: string): string {
    if |code| == 0 then "" else Segment(code[0]) + SpellOut(code[1..])
  }

  /** Reads a code back from its spoken form; `None` when the text is not a run of segments. */
  function ParseSpoken(spoken: string): Option<string>
    decreases |spoken|
  {
    if |spoken| == 0 then Some("")
    else if |spoken| < SegmentLength then None
    else if spoken[..|SpellOpen|] != SpellOpen || spoken[|SpellOpen| + 1..SegmentLength] != SpellClose then None
    else
      match ParseSpoken(spoken[SegmentLength..])
      case None => None
      case Some(rest) => Some([spoken[|SpellOpen|]] + rest)
  }

  /** The spoken form reads back as exactly the code that was spelled. */
  lemma {:induction false} SpellOutRoundTrip(code: string)
    ensures ParseSpoken(SpellOut(code)) == Some(code)
  {
    if |code| > 0 {
      var seg := Segment(code[0]);
      var spoken := SpellOut(code);
      assert spoken == seg + SpellOut(code[1..]);
      assert spoken[..|SpellOpen|] == SpellOpen;
      assert spoken[|SpellOpen|] == code[0];
      assert spoken[|SpellOpen| + 1..SegmentLength] == SpellClose;
      assert spoken[SegmentLength..] == SpellOut(code[1..]);
      SpellOutRoundTrip(code[1..]);
      assert [code[0]] + code[1..] == code;
    }
  }

  /** The spoken form determines its text: whatever parses to a code is that code spelled out. */
  lemma {:induction false} ParseSpokenUnique(spoken: string, code: string)
    requires ParseSpoken(spoken) == Some(code)
    ensures spoken == SpellOut(code)
    decreases |spoken|
  {
    if |spoken| > 0 {
      var rest := ParseSpoken(spoken[SegmentLength..]).value;
      ParseSpokenUnique(spoken[SegmentLength..], rest);
      assert code == [spoken[|SpellOpen|]] + rest;
      assert code[1..] == rest;
      assert spoken[..SegmentLength] == Segment(code[0]) by {
        assert spoken[..SegmentLength] == spoken[..|SpellOpen|] + [spoken[|SpellOpen|]] + spoken[|SpellOpen| + 1..SegmentLength];
      }
      assert spoken == spoken[..SegmentLength] + spoken[SegmentLength..];
    }
  }

  /** One segment per character: the i-th block of the spoken form spells the i-th character. */
  lemma {:induction false} SpellOutSegments(code: string)
    ensures |SpellOut(code)| == |code| * SegmentLength
    ensures forall i :: 0 <= i < |code| ==>
      SpellOut(code)[i * SegmentLength..(i + 1) * SegmentLength] == Segment(code[i])
  {
    if |code| > 0 {
      var rest := SpellOut(code[1..]);
      SpellOutSegments(code[1..]);
      var spoken := SpellOut(code);
      assert spoken == Segment(code[0]) + rest;
      forall i | 0 <= i < |code|
        ensures spoken[i * SegmentLength..(i + 1) * SegmentLength] == Segment(code[i])
      {
        if i == 0 {
          assert spoken[..SegmentLength] == Segment(code[0]);
        } else {
          var j := i - 1;
          assert i * SegmentLength == SegmentLength + j * SegmentLength;
          assert (i + 1) * SegmentLength == SegmentLength + (j + 1) * SegmentLength;
          assert spoken[SegmentLength + j * SegmentLength..SegmentLength + (j + 1) * SegmentLength]
              == rest[j * SegmentLength..(j + 1) * SegmentLength];
          assert code[1..][j] == code[i];
        }
      }
    }
  }

  /** A code that was handed out: the code and its spoken form. */
  datatype Issued = Issued(code: string, spoken: string)

  /**
   * The backend calls made, the issued code (`None` when a backend call raised and the user hears
   * the configuration error instead), and the store afterwards.
   */
  datatype SetupOutcome = SetupOutcome(calls: seq<Call>, issued: Option<Issued>, store: Store)

  /** The code found for the user, when it is usable: an empty string is falsy and is not reused. */
  function ReusableCode(store: Store, user: string): Option<string> {
    match FindKeyByValue(store, user)
    case Some(c) => if c != "" then Some(c) else None
    case None => None
  }

  /** The setup step for `user`, against `store`, with the calls in `fails` raising. */
  function SetupEnvironment(store: Store, user: string, fails: set<Call>, entropy: seq<nat>): (o: SetupOutcome)
    ensures |o.calls| >= 1 && o.calls[0] == FindKeyCall(user)
    ensures o.issued.None? ==> o.store == store
    ensures o.issued.Some? ==> o.calls == [FindKeyCall(user), PersistCall(o.issued.value.code, user)]
    ensures o.issued.Some? ==> o.issued.value.spoken == SpellOut(o.issued.value.code)
    ensures o.issued.Some? ==> ParseSpoken(o.issued.value.spoken) == Some(o.issued.value.code)
    ensures o.issued.Some? ==> o.store == Persist(store, o.issued.value.code, user)
    ensures o.issued.Some? && FindKeyByValue(store, user) != Some("") ==>
      FindKeyByValue(o.store, user) == Some(o.issued.value.code)
    ensures o.issued.Some? ==> Lookup(o.store, o.issued.value.code) == Some(user)
    ensures o.issued.Some? && ReusableCode(store, user).Some? ==> o.issued.value.code == ReusableCode(store, user).value
    ensures o.issued.Some? && ReusableCode(store, user).None? ==> IsFreshCode(o.issued.value.code)
    ensures o.issued.None? <==> o.calls[|o.calls| - 1] in fails
    ensures forall i :: 0 <= i < |o.calls| - 1 ==> o.calls[i] !in fails
  {
    var lookup := FindKeyCall(user);
    if lookup in fails then SetupOutcome([lookup], None, store)
    else
      var code := match ReusableCode(store, user)
        case Some(c) => c
        case None => RandomAlphanumeric(CodeLength, Some(Uppercase), entropy);
      var spoken := SpellOut(code);
      var persist := PersistCall(code, user);
      if persist in fails then SetupOutcome([lookup, persist], None, store)
      else
        SpellOutRoundTrip(code);
        assert FindKeyByValue(store, user) != Some("") ==>
          FindKeyByValue(Persist(store, code, user), user) == Some(code) by {
          if FindKeyByValue(store, user) != Some("") {
            FindAfterPersist(store, code, user);
          }
        }
        PersistIsMapUpdate(store, code, user, code);
        SetupOutcome([lookup, persist], Some(Issued(code, spoken)), Persist(store, code, user))
  }

  /**
   * Asking twice, the second time against the store the first run left, speaks the same code and
   * leaves the store as it was, unless the user's first stored code is the empty string.
   */
  lemma SetupIdempotent(store: Store, user: string, fails1: set<Call>, fails2: set<Call>,
                        entropy1: seq<nat>, entropy2: seq<nat>)
    requires FindKeyByValue(store, user) != Some("")
    ensures var first := SetupEnvironment(store, user, fails1, entropy1);
            var second := SetupEnvironment(first.store, user, fails2, entropy2);
            first.issued.Some? ==>
              second.store == first.store &&
              (second.issued.Some? ==> second.issued.value.code == first.issued.value.code)
  {
    var first := SetupEnvironment(store, user, fails1, entropy1);
    if first.issued.Some? {
      var code := first.issued.value.code;
      assert code != "" by {
        if ReusableCode(store, user).None? {
          assert IsFreshCode(code);
        }
      }
      assert ReusableCode(first.store, user) == Some(code);
      PersistIdempotent(store, code, user);
    }
  }

  /**
   * An empty code stored for the user is falsy, so it is not reused. The step mints a fresh code, and
   * unless that code collides with an earlier pairing it is appended after the empty one, which
   * `findKeyByValue` still finds first: the next run mints again.
   */
  lemma EmptyStoredCodeNotReused(store: Store, user: string, fails1: set<Call>, fails2: set<Call>,
                                 entropy1: seq<nat>, entropy2: seq<nat>)
    requires FindKeyByValue(store, user) == Some("")
    ensures var first := SetupEnvironment(store, user, fails1, entropy1);
            var second := SetupEnvironment(first.store, user, fails2, entropy2);
            (first.issued.Some? ==> IsFreshCode(first.issued.value.code)) &&
            (first.issued.Some? && Lookup(store, first.issued.value.code).None? ==>
              ReusableCode(first.store, user).None? &&
              (second.issued.Some? ==> IsFreshCode(second.issued.value.code)))
  {
    var first := SetupEnvironment(store, user, fails1, entropy1);
    if first.issued.Some? && Lookup(store, first.issued.value.code).None? {
      FindKeepsFirst(store, Entry(first.issued.value.code, user));
    }
  }
}
