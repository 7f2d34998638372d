/** Lookups and invariants over the farmers collection. */
module Accounts {
  import opened Outcomes
  import opened Records

  /** The conditions the repository searches farmers by (the callbacks given to find/findIndex). */
  datatype Lookup =
    | ByUsername(username: string)
    | ByMobile(mobile: string)
    | ByCredentials(username: string, password: string)
    | ById(id: string)

  predicate Matches(f: Farmer, q: Lookup)
  {
    match q
    case ByUsername(u) => f.username == u
    case ByMobile(m) => f.mobile == m
    case ByCredentials(u, pw) => f.username == u && f.password == pw
    case ById(id) => f.id == id
  }

  /** find/findIndex: the position of the first farmer matching q, or None. */
  function FindFarmer(fs: seq<Farmer>, q: Lookup): (r: Option<nat>)
    ensures r.None? <==> forall i :: 0 <= i < |fs| ==> !Matches(fs[i], q)
    ensures r.Some? ==> r.value < |fs| && Matches(fs[r.value], q) &&
                        forall i :: 0 <= i < r.value ==> !Matches(fs[i], q)
  {
    if fs == [] then None
    else if Matches(fs[0], q) then Some(0)
    else match FindFarmer(fs[1..], q)
      case None => None
      case Some(i) => Some(i + 1)
  }

  predicate UsernameTaken(fs: seq<Farmer>, username: string)
  {
    exists i :: 0 <= i < |fs| && fs[i].username == username
  }

  predicate MobileTaken(fs: seq<Farmer>, mobile: string)
  {
    exists i :: 0 <= i < |fs| && fs[i].mobile == mobile
  }

  /** The invariant registration keeps: no two farmers share a username or a mobile number. */
  predicate Unique(fs: seq<Farmer>)
  {
    forall i, j :: 0 <= i < j < |fs| ==> fs[i].username != fs[j].username && fs[i].mobile != fs[j].mobile
  }

  /** Appending a farmer whose username and mobile are both new keeps them unique. */
  lemma AppendKeepsUnique(fs: seq<Farmer>, f: Farmer)
    requires Unique(fs)
    requires !UsernameTaken(fs, f.username) && !MobileTaken(fs, f.mobile)
    ensures Unique(fs + [f])
  {
    var gs := fs + [f];
    forall i, j | 0 <= i < j < |gs|
      ensures gs[i].username != gs[j].username && gs[i].mobile != gs[j].mobile
    {
      if j == |fs| {
        assert gs[i] == fs[i];
      }
    }
  }

  /** Changing one farmer's password keeps usernames and mobiles unique. */
  lemma SetPasswordKeepsUnique(fs: seq<Farmer>, i: nat, password: string)
    requires Unique(fs) && i < |fs|
    ensures Unique(fs[i := fs[i].(password := password)])
  {
    var gs := fs[i := fs[i].(password := password)];
    forall a, b | 0 <= a < b < |gs|
      ensures gs[a].username != gs[b].username && gs[a].mobile != gs[b].mobile
    {
      assert gs[a].username == fs[a].username && gs[a].mobile == fs[a].mobile;
      assert gs[b].username == fs[b].username && gs[b].mobile == fs[b].mobile;
    }
  }

  /** Under the invariant the first farmer with a username is the only one. */
  lemma UsernameMatchIsOnly(fs: seq<Farmer>, username: string, i: nat)
    requires Unique(fs)
    requires FindFarmer(fs, ByUsername(username)) == Some(i)
    ensures forall j :: 0 <= j < |fs| && fs[j].username == username ==> j == i
  {
  }

  /** A login only succeeds for a username that is taken. */
  lemma CredentialsImplyUsername(fs: seq<Farmer>, username: string, password: string)
    requires FindFarmer(fs, ByCredentials(username, password)).Some?
    ensures FindFarmer(fs, ByUsername(username)).Some?
  {
    var i := FindFarmer(fs, ByCredentials(username, password)).value;
    assert Matches(fs[i], ByUsername(username));
  }

  /** The session projection ignores the password and the security questions and answers:
      two accounts that differ only there log in as the same session. */
  lemma SessionHidesSecrets(f: Farmer, password: string, q1: string, a1: string, q2: string, a2: string)
    ensures SessionOf(f.(password := password, securityQ1 := q1, securityA1 := a1, securityQ2 := q2, securityA2 := a2)) == SessionOf(f)
  {
  }
}
