/**
 * The backend collaborator (velux-alexa-integration-shared), reduced to what the skill can observe:
 * the scenarios it can trigger, a trace of the calls it is asked to make, and the code -> user store
 * behind `findKeyByValue` and `persistUserId`.
 */
module Backend {
  import opened Wrappers

  /** The two backend automation routines that move the shutters. */
  datatype Scenario = WakeUp | Bedtime {
    function Name(): string {
      match this
      case WakeUp => "wake_up"
      case Bedtime => "bedtime"
    }
  }

  /** One call into the backend. A call may raise; which ones do is a parameter of each operation. */
  datatype Call =
    | WarmUpCall
    | FindKeyCall(user: string)
    | PersistCall(code: string, user: string)
    | ScenarioCall(scenario: Scenario)

  /** One stored pairing: setup code -> user id. */
  datatype Entry = Entry(code: string, user: string)

  /** The backend's pairing table, in storage order. */
  type Store = seq<Entry>

  /** The user a code is paired with: the first entry under that code. */
  function Lookup(s: Store, code: string): (r: Option<string>)
    ensures r.None? <==> forall i :: 0 <= i < |s| ==> s[i].code != code
    ensures r.Some? ==> exists i :: 0 <= i < |s| && s[i] == Entry(code, r.value)
  {
    if |s| == 0 then None
    else if s[0].code == code then Some(s[0].user)
    else Lookup(s[1..], code)
  }

  /**
   * `findKeyByValue(user)`: the code of the first entry paired with `user`, if any.
   */
  function FindKeyByValue(s: Store, user: string): (r: Option<string>)
    ensures r.None? <==> forall i :: 0 <= i < |s| ==> s[i].user != user
    ensures r.Some? ==> exists i :: 0 <= i < |s| && s[i] == Entry(r.value, user) &&
                                    forall j :: 0 <= j < i ==> s[j].user != user
  {
    if |s| == 0 then None
    else if s[0].user == user then Some(s[0].code)
    else
      var r := FindKeyByValue(s[1..], user);
      assert r.Some? ==> exists i :: 0 <= i < |s| && s[i] == Entry(r.value, user) &&
                                     forall j :: 0 <= j < i ==> s[j].user != user by {
        if r.Some? {
          var i :| 0 <= i < |s[1..]| && s[1..][i] == Entry(r.value, user) &&
                   forall j :: 0 <= j < i ==> s[1..][j].user != user;
          assert s[i + 1] == s[1..][i];
          assert forall j :: 1 <= j < i + 1 ==> s[j] == s[1..][j - 1];
        }
      }
      r
  }

  /** Every entry under `code` re-paired with `user`; the rest untouched. */
  function ReplaceAll(s: Store, code: string, user: string): (r: Store)
    ensures |r| == |s|
    ensures forall i :: 0 <= i < |s| ==> r[i] == (if s[i].code == code then Entry(code, user) else s[i])
  {
    if |s| == 0 then []
    else [if s[0].code == code then Entry(code, user) else s[0]] + ReplaceAll(s[1..], code, user)
  }

  /**
   * `persistUserId(code)`: pair `code` with the current user, overwriting a pairing the code
   * already has and appending one otherwise.
   */
  function Persist(s: Store, code: string, user: string): Store {
    if Lookup(s, code).Some? then ReplaceAll(s, code, user) else s + [Entry(code, user)]
  }

  /** Read through the store as a map: after persisting, `code` maps to `user` and no other code moves. */
  lemma PersistIsMapUpdate(s: Store, code: string, user: string, k: string)
    ensures Lookup(Persist(s, code, user), k) == if k == code then Some(user) else Lookup(s, k)
  {
    var r := Persist(s, code, user);
    if Lookup(s, code).Some? {
      ReplaceAllLookup(s, code, user, k);
    } else {
      AppendLookup(s, Entry(code, user), k);
    }
  }

  lemma {:induction false} ReplaceAllLookup(s: Store, code: string, user: string, k: string)
    requires Lookup(s, code).Some?
    ensures Lookup(ReplaceAll(s, code, user), k) == if k == code then Some(user) else Lookup(s, k)
  {
    if k == code {
      ReplaceAllLookupSame(s, code, user);
    } else {
      ReplaceAllLookupOther(s, code, user, k);
    }
  }

  /** Every entry under `code` now holds `user`, and there is at least one, so the first does. */
  lemma ReplaceAllLookupSame(s: Store, code: string, user: string)
    requires Lookup(s, code).Some?
    ensures Lookup(ReplaceAll(s, code, user), code) == Some(user)
  {
  }

  lemma {:induction false} ReplaceAllLookupOther(s: Store, code: string, user: string, k: string)
    requires k != code
    ensures Lookup(ReplaceAll(s, code, user), k) == Lookup(s, k)
  {
    if |s| > 0 {
      var r := ReplaceAll(s, code, user);
      assert r[1..] == ReplaceAll(s[1..], code, user);
      ReplaceAllLookupOther(s[1..], code, user, k);
    }
  }

  lemma {:induction false} AppendLookup(s: Store, e: Entry, k: string)
    requires Lookup(s, e.code).None?
    ensures Lookup(s + [e], k) == if k == e.code then Some(e.user) else Lookup(s, k)
  {
    if |s| == 0 {
      assert s + [e] == [e];
    } else {
      assert (s + [e])[1..] == s[1..] + [e];
      if s[0].code != k {
        AppendLookup(s[1..], e, k);
      }
    }
  }

  /**
   * Persisting the code that `findKeyByValue` returned, or any code when it returned nothing, makes
   * `findKeyByValue` return that code afterwards.
   */
  lemma FindAfterPersist(s: Store, code: string, user: string)
    requires FindKeyByValue(s, user) == None || FindKeyByValue(s, user) == Some(code)
    ensures FindKeyByValue(Persist(s, code, user), user) == Some(code)
  {
    if Lookup(s, code).None? {
      AppendFind(s, Entry(code, user));
    }
  }

  lemma {:induction false} AppendFind(s: Store, e: Entry)
    requires FindKeyByValue(s, e.user) == None
    ensures FindKeyByValue(s + [e], e.user) == Some(e.code)
  {
    if |s| == 0 {
      assert s + [e] == [e];
    } else {
      assert (s + [e])[1..] == s[1..] + [e];
      AppendFind(s[1..], e);
    }
  }

  /** Persisting the same pairing twice leaves the store as the first write left it. */
  lemma PersistIdempotent(s: Store, code: string, user: string)
    ensures Persist(Persist(s, code, user), code, user) == Persist(s, code, user)
  {
    var s1 := Persist(s, code, user);
    PersistIsMapUpdate(s, code, user, code);
    assert Lookup(s1, code).Some?;
    var s2 := ReplaceAll(s1, code, user);
    assert forall i :: 0 <= i < |s1| && s1[i].code == code ==> s1[i] == Entry(code, user) by {
      if Lookup(s, code).None? {
        assert forall i :: 0 <= i < |s| ==> s1[i] == s[i];
      }
    }
    assert s2 == s1;
  }

  /** An entry appended after the user's first pairing does not change what `findKeyByValue` finds. */
  lemma {:induction false} FindKeepsFirst(s: Store, e: Entry)
    requires FindKeyByValue(s, e.user).Some?
    ensures FindKeyByValue(s + [e], e.user) == FindKeyByValue(s, e.user)
  {
    assert (s + [e])[1..] == s[1..] + [e];
    if s[0].user != e.user {
      FindKeepsFirst(s[1..], e);
    }
  }
}
