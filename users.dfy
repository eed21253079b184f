/** Account provisioning on the users admin page: the slug and random-id helpers that build a
    synthetic e-mail address and a temporary password, and the checks createUser, updateUser and
    deleteUser run before they call the identity service. Math.random is modelled as sequences of
    indexes into the id alphabet (`Math.floor(Math.random() * chars.length)`): one sequence for the
    six draws of the synthetic address and one for the twelve draws of the temporary password. */
module Users {
  import opened Js
  import opened AdminGate

  /** The characters randomId draws from: lower-case letters and digits without i, l, o, 0 and 1. */
  const ID_ALPHABET: string := "abcdefghjkmnpqrstuvwxyz23456789"
  const SYNTHETIC_DOMAIN: string := "@users.artass.local"
  const SLUG_FALLBACK: string := "user"
  const DEFAULT_CHARACTER_LIMIT: real := 4.0
  /** The length of the random part of a synthetic address, randomId's default. */
  const EMAIL_ID_LENGTH: nat := 6
  const PASSWORD_GROUP_LENGTH: nat := 4

  // ---------------------------------------------------------------------------------------------
  // slugify

  /** [a-z0-9] */
  predicate IsSlugChar(c: char) {
    'a' <= c <= 'z' || '0' <= c <= '9'
  }

  predicate NoDoubleDash(r: string) {
    forall i :: 0 <= i < |r| - 1 ==> !(r[i] == '-' && r[i + 1] == '-')
  }

  predicate SlugAlphabet(r: string) {
    forall i :: 0 <= i < |r| ==> IsSlugChar(r[i]) || r[i] == '-'
  }

  /** What slugify promises: a non-empty run of [a-z0-9-] with no dash at either end and no two dashes
      in a row. */
  predicate IsSlug(r: string) {
    r != [] && SlugAlphabet(r) && r[0] != '-' && r[|r| - 1] != '-' && NoDoubleDash(r)
  }

  /** The letters and digits of a string, in order. */
  function SlugChars(s: string): (r: string)
    ensures |r| <= |s|
    ensures forall i :: 0 <= i < |r| ==> IsSlugChar(r[i])
  {
    if s == [] then [] else (if IsSlugChar(s[0]) then [s[0]] else []) + SlugChars(s[1..])
  }

  /** `.replace(/[^a-z0-9]+/g, '-')`: every maximal run of other characters becomes one dash.
      `inRun` says the character before `s` belonged to such a run and its dash is already out. */
  function CollapseRuns(s: string, inRun: bool): (r: string)
    ensures SlugAlphabet(r)
    ensures NoDoubleDash(r)
    ensures inRun && r != [] ==> IsSlugChar(r[0])
  {
    if s == [] then []
    else if IsSlugChar(s[0]) then [s[0]] + CollapseRuns(s[1..], false)
    else (if inRun then [] else "-") + CollapseRuns(s[1..], true)
  }

  /** `.replace(/(^-|-$)/g, '')`: a dash at the start and a dash at the end go, and nothing else. */
  function StripEdgeDashes(t: string): (r: string)
    ensures exists i, j | 0 <= i <= j <= |t| ::
              r == t[i..j] && i <= 1 && j >= |t| - 1
              && (forall k :: 0 <= k < i ==> t[k] == '-') && (forall k :: j <= k < |t| ==> t[k] == '-')
    ensures SlugAlphabet(t) && NoDoubleDash(t) ==>
      SlugAlphabet(r) && NoDoubleDash(r) && (r != [] ==> r[0] != '-' && r[|r| - 1] != '-')
  {
    var i := if t != [] && t[0] == '-' then 1 else 0;
    var a := t[i..];
    var j := if a != [] && a[|a| - 1] == '-' then |t| - 1 else |t|;
    assert forall k :: 0 <= k < i ==> t[k] == '-';
    assert forall k :: j <= k < |t| ==> t[k] == '-';
    assert SlugAlphabet(t) && NoDoubleDash(t) ==> SlugAlphabet(t[i..j]) && NoDoubleDash(t[i..j]) by {
      if SlugAlphabet(t) && NoDoubleDash(t) { SliceKeepsSlugShape(t, i, j); }
    }
    t[i..j]
  }

  /** A slice of a string over [a-z0-9-] without double dashes is again one. */
  lemma SliceKeepsSlugShape(t: string, i: nat, j: nat)
    requires i <= j <= |t| && SlugAlphabet(t) && NoDoubleDash(t)
    ensures SlugAlphabet(t[i..j]) && NoDoubleDash(t[i..j])
  {
    assert forall k :: 0 <= k < j - i ==> t[i..j][k] == t[i + k];
  }

  /** slugify after its Unicode steps: the name here has already been through
      `toLowerCase().normalize('NFD').replace(/\p{Diacritic}/gu, '')` (the `fold` parameter of
      CreateUser). ASCII letters are lower-cased again, then runs of other characters collapse to one
      dash, the edge dashes go, and an empty result becomes "user". Every result is a slug. */
  function Slugify(s: string): (r: string)
    ensures IsSlug(r)
  {
    var t := StripEdgeDashes(CollapseRuns(LowerAscii(s), false));
    if t == [] then
      assert IsSlugChar(SLUG_FALLBACK[0]) && IsSlugChar(SLUG_FALLBACK[3]);
      SLUG_FALLBACK
    else t
  }

  /** What CollapseRuns emits for one character `c`, given whether a run was already open. */
  function CollapseHead(c: char, inRun: bool): string
  {
    if IsSlugChar(c) then [c] else if inRun then [] else "-"
  }

  lemma ConcatAssoc(a: string, b: string, c: string)
    ensures a + (b + c) == (a + b) + c
  {
  }

  /** One step of CollapseRuns on a non-empty string. */
  lemma CollapseStep(s: string, inRun: bool)
    requires s != []
    ensures CollapseRuns(s, inRun) == CollapseHead(s[0], inRun) + CollapseRuns(s[1..], !IsSlugChar(s[0]))
  {
  }

  /** After a letter or digit no run is open, so what follows collapses on its own. */
  lemma {:induction false} CollapseAppend(u: string, t: string, inRun: bool)
    requires u != [] && IsSlugChar(u[|u| - 1])
    ensures CollapseRuns(u + t, inRun) == CollapseRuns(u, inRun) + CollapseRuns(t, false)
  {
    var v := u + t;
    assert v[0] == u[0] && v[1..] == u[1..] + t;
    CollapseStep(v, inRun);
    CollapseStep(u, inRun);
    var h := CollapseHead(u[0], inRun);
    var b := !IsSlugChar(u[0]);
    if |u| == 1 {
      assert u[1..] + t == t;
      assert CollapseRuns(u, inRun) == h;
    } else {
      CollapseAppend(u[1..], t, b);
      ConcatAssoc(h, CollapseRuns(u[1..], b), CollapseRuns(t, false));
    }
  }

  /** A run of characters other than [a-z0-9] after a letter or digit becomes exactly one dash, whatever
      comes before and after it. */
  lemma {:induction false} CollapseSplit(u: string, x: string, w: string, inRun: bool)
    requires u != [] && IsSlugChar(u[|u| - 1])
    requires x != [] && forall k :: 0 <= k < |x| ==> !IsSlugChar(x[k])
    ensures CollapseRuns(u + x + w, inRun) == CollapseRuns(u, inRun) + "-" + CollapseRuns(w, true)
  {
    assert u + x + w == u + (x + w);
    CollapseAppend(u, x + w, inRun);
    CollapseRunOfOthers(x, w, false);
  }

  /** A non-empty run of characters other than [a-z0-9] contributes at most one dash. */
  lemma {:induction false} CollapseRunOfOthers(x: string, w: string, inRun: bool)
    requires x != [] && forall k :: 0 <= k < |x| ==> !IsSlugChar(x[k])
    ensures CollapseRuns(x + w, inRun) == (if inRun then "" else "-") + CollapseRuns(w, true)
  {
    var v := x + w;
    assert v[0] == x[0] && v[1..] == x[1..] + w;
    CollapseStep(v, inRun);
    if |x| > 1 {
      CollapseRunOfOthers(x[1..], w, true);
    } else {
      assert x[1..] + w == w;
    }
  }

  lemma {:induction false} SlugCharsConcat(a: string, b: string)
    ensures SlugChars(a + b) == SlugChars(a) + SlugChars(b)
  {
    if a == [] {
      assert a + b == b;
    } else {
      assert (a + b)[0] == a[0] && (a + b)[1..] == a[1..] + b;
      SlugCharsConcat(a[1..], b);
    }
  }

  lemma {:induction false} CollapseKeepsSlugChars(s: string, inRun: bool)
    ensures SlugChars(CollapseRuns(s, inRun)) == SlugChars(s)
  {
    if s != [] {
      CollapseKeepsSlugChars(s[1..], !IsSlugChar(s[0]));
      var head := if IsSlugChar(s[0]) then [s[0]] else if inRun then [] else "-";
      SlugCharsConcat(head, CollapseRuns(s[1..], !IsSlugChar(s[0])));
      assert SlugChars("-") == [] by { assert "-"[1..] == []; }
    }
  }

  lemma StripKeepsSlugChars(t: string)
    ensures SlugChars(StripEdgeDashes(t)) == SlugChars(t)
  {
    var i := if t != [] && t[0] == '-' then 1 else 0;
    var a := t[i..];
    if i == 1 {
      assert t == "-" + a;
      DashKeepsSlugChars(a);
    } else {
      assert a == t;
    }
    if a != [] && a[|a| - 1] == '-' {
      assert a == a[..|a| - 1] + "-";
      DashKeepsSlugChars(a[..|a| - 1]);
      assert StripEdgeDashes(t) == a[..|a| - 1];
    } else {
      assert StripEdgeDashes(t) == a;
    }
  }

  /** A dash added at either end adds no letter or digit. */
  lemma DashKeepsSlugChars(a: string)
    ensures SlugChars("-" + a) == SlugChars(a) && SlugChars(a + "-") == SlugChars(a)
  {
    assert SlugChars("-") == [] by { assert "-"[1..] == []; }
    SlugCharsConcat("-", a);
    SlugCharsConcat(a, "-");
  }

  lemma {:induction false} EmptySlugChars(t: string)
    requires SlugChars(t) == []
    ensures forall i :: 0 <= i < |t| ==> !IsSlugChar(t[i])
  {
    if t != [] {
      EmptySlugChars(t[1..]);
      assert forall i :: 1 <= i < |t| ==> t[i] == t[1..][i - 1];
    }
  }

  /** A slug-alphabet string without letters or digits and without a double dash is "" or "-", which
      the edge strip empties. */
  lemma OnlyDashes(t: string)
    requires SlugAlphabet(t) && NoDoubleDash(t)
    requires SlugChars(t) == []
    ensures StripEdgeDashes(t) == []
  {
    EmptySlugChars(t);
    assert forall i :: 0 <= i < |t| ==> t[i] == '-';
  }

  /** The slug keeps every letter and digit of the lower-cased name, in order, and nothing else of it;
      a name without any letter or digit gives "user". */
  lemma SlugifyKeepsLettersAndDigits(s: string)
    ensures SlugChars(LowerAscii(s)) != [] ==> SlugChars(Slugify(s)) == SlugChars(LowerAscii(s))
    ensures SlugChars(LowerAscii(s)) == [] ==> Slugify(s) == SLUG_FALLBACK
  {
    var c := CollapseRuns(LowerAscii(s), false);
    CollapseKeepsSlugChars(LowerAscii(s), false);
    StripKeepsSlugChars(c);
    if SlugChars(LowerAscii(s)) == [] {
      OnlyDashes(c);
    }
  }

  lemma {:induction false} CollapseFixesSlug(t: string, inRun: bool)
    requires SlugAlphabet(t) && NoDoubleDash(t)
    requires inRun && t != [] ==> t[0] != '-'
    ensures CollapseRuns(t, inRun) == t
  {
    if t != [] {
      CollapseFixesSlug(t[1..], !IsSlugChar(t[0]));
    }
  }

  lemma {:induction false} LowerFixesSlug(t: string)
    requires SlugAlphabet(t)
    ensures LowerAscii(t) == t
  {
    if t != [] {
      LowerFixesSlug(t[1..]);
    }
  }

  /** A slug is its own slug, so slugify is idempotent. */
  lemma SlugifyIdempotent(s: string)
    ensures Slugify(Slugify(s)) == Slugify(s)
  {
    var t := Slugify(s);
    LowerFixesSlug(t);
    CollapseFixesSlug(t, false);
  }

  // ---------------------------------------------------------------------------------------------
  // randomId, the synthetic address and the temporary password

  predicate ValidRolls(rolls: seq<nat>) {
    forall i :: 0 <= i < |rolls| ==> rolls[i] < |ID_ALPHABET|
  }

  /** The characters a stream of draws selects. */
  function Pick(rolls: seq<nat>): (r: string)
    requires ValidRolls(rolls)
    ensures |r| == |rolls|
    ensures forall i :: 0 <= i < |r| ==> r[i] == ID_ALPHABET[rolls[i]]
  {
    if rolls == [] then [] else Pick(rolls[..|rolls| - 1]) + [ID_ALPHABET[rolls[|rolls| - 1]]]
  }

  /** randomId(n), drawing the first n indexes of `rolls`. */
  method RandomId(n: nat, rolls: seq<nat>) returns (out: string)
    requires ValidRolls(rolls) && n <= |rolls|
    ensures out == Pick(rolls[..n])
    ensures |out| == n && forall i :: 0 <= i < n ==> out[i] in ID_ALPHABET
  {
    out := "";
    for i := 0 to n
      invariant out == Pick(rolls[..i])
    {
      assert rolls[..i + 1][..i] == rolls[..i];
      out := out + [ID_ALPHABET[rolls[i]]];
    }
  }

  /** No randomId character is a dash, an at sign, a dot or a line break. */
  lemma AlphabetHasNoSeparators(c: char)
    requires c in ID_ALPHABET
    ensures IsSlugChar(c) && c != '-' && c != '@' && c != '.'
  {
  }

  /** `${randomId(4)}-${randomId(4)}-${randomId(4)}` for twelve draws. */
  function TempPassword(rolls: seq<nat>): (r: string)
    requires ValidRolls(rolls) && |rolls| == 3 * PASSWORD_GROUP_LENGTH
    ensures |r| == 14
    ensures forall i :: 0 <= i < |r| ==> (r[i] == '-' <==> i == 4 || i == 9)
    ensures forall i :: 0 <= i < |r| && i != 4 && i != 9 ==> r[i] in ID_ALPHABET
  {
    var r := Pick(rolls[..4]) + "-" + Pick(rolls[4..8]) + "-" + Pick(rolls[8..]);
    assert forall i :: 0 <= i < |r| && i != 4 && i != 9 ==> r[i] in ID_ALPHABET by {
      forall i | 0 <= i < |r| && i != 4 && i != 9 ensures r[i] in ID_ALPHABET {
        if i < 4 { assert r[i] == ID_ALPHABET[rolls[i]]; }
        else if i < 9 { assert r[i] == ID_ALPHABET[rolls[i - 1]]; }
        else { assert r[i] == ID_ALPHABET[rolls[i - 2]]; }
      }
    }
    assert forall i :: 0 <= i < |r| && i != 4 && i != 9 ==> r[i] != '-' by {
      forall i | 0 <= i < |r| && i != 4 && i != 9 ensures r[i] != '-' {
        AlphabetHasNoSeparators(r[i]);
      }
    }
    r
  }

  /** `${slugify(name)}-${randomId()}@users.artass.local`, for a name already folded as Slugify expects:
      the slug, a dash, the random part and the fixed domain. */
  function SyntheticEmail(name: string, suffix: string): (e: string)
    ensures |e| == |Slugify(name)| + 1 + |suffix| + |SYNTHETIC_DOMAIN|
    ensures e[..|Slugify(name)|] == Slugify(name) && e[|Slugify(name)|] == '-'
    ensures e[|Slugify(name)| + 1..|e| - |SYNTHETIC_DOMAIN|] == suffix
    ensures e[|e| - |SYNTHETIC_DOMAIN|..] == SYNTHETIC_DOMAIN
  {
    var slug := Slugify(name);
    var e := slug + "-" + suffix + SYNTHETIC_DOMAIN;
    assert e[..|slug|] == slug;
    assert e[|slug| + 1..|e| - |SYNTHETIC_DOMAIN|] == suffix;
    e
  }

  /** A synthetic address is a slug, a dash, six id characters and the domain, and its only at sign is
      the domain's. */
  lemma SyntheticEmailShape(name: string, rolls: seq<nat>)
    requires ValidRolls(rolls) && |rolls| == EMAIL_ID_LENGTH
    ensures var e := SyntheticEmail(name, Pick(rolls));
      var at := |e| - |SYNTHETIC_DOMAIN|;
      && at >= EMAIL_ID_LENGTH + 2
      && e[at..] == SYNTHETIC_DOMAIN
      && IsSlug(e[..at - EMAIL_ID_LENGTH - 1])
      && e[at - EMAIL_ID_LENGTH - 1] == '-'
      && (forall i :: at - EMAIL_ID_LENGTH <= i < at ==> e[i] in ID_ALPHABET)
      && (forall i :: 0 <= i < |e| ==> (e[i] == '@' <==> i == at))
  {
    var suffix := Pick(rolls);
    var e := SyntheticEmail(name, suffix);
    var n := |Slugify(name)|;
    var at := |e| - |SYNTHETIC_DOMAIN|;
    forall i | n < i < at ensures e[i] in ID_ALPHABET {
      assert e[i] == e[n + 1..at][i - n - 1];
    }
    forall i | 0 <= i < at ensures e[i] != '@' {
      if i < n {
        assert e[i] == e[..n][i];
      } else if n < i {
        AlphabetHasNoSeparators(e[i]);
      }
    }
    DomainIsOnlyAt(e, at);
  }

  /** A string that has no "@" before the synthetic domain has its only "@" at the domain's start. */
  lemma DomainIsOnlyAt(e: string, at: int)
    requires 0 <= at <= |e| && e[at..] == SYNTHETIC_DOMAIN
    requires forall i :: 0 <= i < at ==> e[i] != '@'
    ensures forall i :: 0 <= i < |e| ==> (e[i] == '@' <==> i == at)
  {
    forall i | at <= i < |e| ensures e[i] == '@' <==> i == at {
      assert e[i] == SYNTHETIC_DOMAIN[i - at];
    }
  }

  // ---------------------------------------------------------------------------------------------
  // createUser, updateUser, deleteUser

  /** The fields of the users form, as submitted (None when absent). */
  datatype UserForm = UserForm(
    id: Option<string>, email: Option<string>, name: Option<string>, discordId: Option<string>,
    characterLimit: Option<string>, isAdmin: Option<string>, newPassword: Option<string>)

  datatype UserFailure = NameAndLimitRequired | IdRequired | SelfDeletion

  function UserMessage(f: UserFailure): string {
    match f
    case NameAndLimitRequired => "Nombre y Límite de personajes son obligatorios"
    case IdRequired => "ID requerido"
    case SelfDeletion => "No podés eliminar tu propio usuario desde aquí."
  }

  /** The account createUser asks the identity service for, and the profile columns it then writes. */
  datatype NewAccount = NewAccount(
    email: string, password: string, name: string, discordId: string, characterLimit: Number, isAdmin: bool)

  /** The profile columns updateUser writes, with the new address and the new password when they
      were given. */
  datatype ProfileUpdate = ProfileUpdate(
    id: string, newEmail: Option<string>, newPassword: Option<string>,
    name: string, discordId: string, characterLimit: Number, isAdmin: bool)

  /** The address field: trimmed, then lower-cased. It is empty exactly when the field is blank, and
      holds no upper-case ASCII letter. */
  function EmailField(form: UserForm): (e: string)
    ensures |e| == |Trim(FieldText(form.email))|
    ensures e == "" <==> forall i :: 0 <= i < |FieldText(form.email)| ==> IsTrimmable(FieldText(form.email)[i])
    ensures forall i :: 0 <= i < |e| ==> !('A' <= e[i] <= 'Z')
  {
    LowerAscii(Trim(FieldText(form.email)))
  }

  /** The draws of a stream from `lo` to `hi` are draws too. */
  lemma ValidRollsSlice(rolls: seq<nat>, lo: nat, hi: nat)
    requires ValidRolls(rolls) && lo <= hi <= |rolls|
    ensures ValidRolls(rolls[lo..hi])
  {
    assert forall i :: 0 <= i < hi - lo ==> rolls[lo..hi][i] == rolls[lo + i];
  }

  /** `email || `${slugify(name)}-${randomId()}@users.artass.local``: the address field when it is not
      empty, else a synthetic address from six draws. */
  method FinalEmail(email: string, name: string, suffixRolls: seq<nat>) returns (finalEmail: string)
    requires ValidRolls(suffixRolls) && |suffixRolls| == EMAIL_ID_LENGTH
    ensures email != "" ==> finalEmail == email
    ensures email == "" ==> finalEmail == SyntheticEmail(name, Pick(suffixRolls))
  {
    if email != "" {
      return email;
    }
    var suffix := RandomId(EMAIL_ID_LENGTH, suffixRolls);
    assert suffixRolls[..EMAIL_ID_LENGTH] == suffixRolls;
    finalEmail := Slugify(name) + "-" + suffix + SYNTHETIC_DOMAIN;
  }

  /** `${randomId(4)}-${randomId(4)}-${randomId(4)}`, drawing twelve indexes. */
  method NewTempPassword(rolls: seq<nat>) returns (password: string)
    requires ValidRolls(rolls) && |rolls| == 3 * PASSWORD_GROUP_LENGTH
    ensures password == TempPassword(rolls)
  {
    var g1 := RandomId(PASSWORD_GROUP_LENGTH, rolls);
    ValidRollsSlice(rolls, 4, 12);
    var g2 := RandomId(PASSWORD_GROUP_LENGTH, rolls[4..]);
    ValidRollsSlice(rolls, 8, 12);
    var g3 := RandomId(PASSWORD_GROUP_LENGTH, rolls[8..]);
    assert rolls[4..8] == rolls[4..][..4] && rolls[8..] == rolls[8..][..4];
    password := g1 + "-" + g2 + "-" + g3;
  }

  /** createUser up to the call to the identity service. Math.random is drawn six times for the
      synthetic address (`suffixRolls`, unused when the address field is filled in) and twelve times
      for the temporary password (`passwordRolls`). `fold` is the start of slugify,
      `toLowerCase().normalize('NFD').replace(/\p{Diacritic}/gu, '')`, which the address is built from. */
  method CreateUser(user: Option<string>, isAdmin: string -> Option<bool>, form: UserForm,
                    toNumber: string -> Number, fold: string -> string,
                    suffixRolls: seq<nat>, passwordRolls: seq<nat>)
    returns (o: Outcome<NewAccount, UserFailure>)
    requires ValidRolls(suffixRolls) && |suffixRolls| == EMAIL_ID_LENGTH
    requires ValidRolls(passwordRolls) && |passwordRolls| == 3 * PASSWORD_GROUP_LENGTH
    ensures Check(user, isAdmin).Deny? ==> o == Redirected(Check(user, isAdmin).to)
    ensures var name := Trim(FieldText(form.name));
      var limit := NumberField(form.characterLimit, DEFAULT_CHARACTER_LIMIT, toNumber);
      Check(user, isAdmin).Admit? ==>
        (o.Done? <==> name != "" && !limit.NaN?) && (!o.Done? ==> o == Failed(NameAndLimitRequired))
    ensures o.Done? ==>
      var a := o.value;
      && a.name == Trim(FieldText(form.name)) && a.name != ""
      && a.discordId == Trim(FieldText(form.discordId))
      && a.characterLimit == NumberField(form.characterLimit, DEFAULT_CHARACTER_LIMIT, toNumber)
      && !a.characterLimit.NaN?
      && a.isAdmin == (form.isAdmin == Some("on"))
      && (EmailField(form) != "" ==> a.email == EmailField(form))
      && (EmailField(form) == "" ==> a.email == SyntheticEmail(fold(a.name), Pick(suffixRolls)))
      && a.password == TempPassword(passwordRolls)
  {
    var g := Check(user, isAdmin);
    if g.Deny? {
      return Redirected(g.to);
    }
    var email := EmailField(form);
    var name := Trim(FieldText(form.name));
    var discordId := Trim(FieldText(form.discordId));
    var limit := NumberField(form.characterLimit, DEFAULT_CHARACTER_LIMIT, toNumber);
    var admin := form.isAdmin == Some("on");
    if name == "" || limit.NaN? {
      return Failed(NameAndLimitRequired);
    }
    var finalEmail := FinalEmail(email, fold(name), suffixRolls);
    var tempPassword := NewTempPassword(passwordRolls);
    o := Done(NewAccount(finalEmail, tempPassword, name, discordId, limit, admin));
  }

  /** updateUser up to its calls to the identity service: the id is required (it is not trimmed);
      neither the name nor the limit is checked. */
  function UpdateUser(user: Option<string>, isAdmin: string -> Option<bool>, form: UserForm, toNumber: string -> Number): (o: Outcome<ProfileUpdate, UserFailure>)
    ensures Check(user, isAdmin).Deny? ==> o == Redirected(Check(user, isAdmin).to)
    ensures Check(user, isAdmin).Admit? ==> (o.Done? <==> FieldText(form.id) != "")
    ensures Check(user, isAdmin).Admit? && FieldText(form.id) == "" ==> o == Failed(IdRequired)
    ensures o.Done? ==> o.value.id == FieldText(form.id) && o.value.id != ""
                        && (o.value.newEmail.Some? <==> EmailField(form) != "")
                        && (o.value.newEmail.Some? ==> o.value.newEmail.value == EmailField(form))
                        && (o.value.newPassword.Some? <==> FieldText(form.newPassword) != "")
                        && (o.value.newPassword.Some? ==> o.value.newPassword.value == FieldText(form.newPassword))
                        && o.value.name == Trim(FieldText(form.name))
                        && o.value.discordId == Trim(FieldText(form.discordId))
                        && o.value.characterLimit == NumberField(form.characterLimit, DEFAULT_CHARACTER_LIMIT, toNumber)
                        && o.value.isAdmin == (form.isAdmin == Some("on"))
  {
    var g := Check(user, isAdmin);
    if g.Deny? then Redirected(g.to)
    else
      var id := FieldText(form.id);
      if id == "" then Failed(IdRequired)
      else
        var email := EmailField(form);
        var password := FieldText(form.newPassword);
        Done(ProfileUpdate(
          id, if email != "" then Some(email) else None, if password != "" then Some(password) else None,
          Trim(FieldText(form.name)), Trim(FieldText(form.discordId)),
          NumberField(form.characterLimit, DEFAULT_CHARACTER_LIMIT, toNumber), form.isAdmin == Some("on")))
  }

  /** deleteUser up to its call to the identity service: the id of the account to delete, which is
      never empty and never the caller's own. */
  function DeleteUser(user: Option<string>, isAdmin: string -> Option<bool>, idField: Option<string>): (o: Outcome<string, UserFailure>)
    ensures Check(user, isAdmin).Deny? ==> o == Redirected(Check(user, isAdmin).to)
    ensures Check(user, isAdmin).Admit? && FieldText(idField) == "" ==> o == Failed(IdRequired)
    ensures o.Done? <==> Check(user, isAdmin).Admit? && FieldText(idField) != "" && FieldText(idField) != user.value
    ensures o.Done? ==> o.value == FieldText(idField) && o.value != "" && Some(o.value) != user
    ensures o == Failed(SelfDeletion) <==> Check(user, isAdmin).Admit? && FieldText(idField) != "" && Some(FieldText(idField)) == user
  {
    var g := Check(user, isAdmin);
    if g.Deny? then Redirected(g.to)
    else
      var id := FieldText(idField);
      if id == "" then Failed(IdRequired)
      else if id == g.uid then Failed(SelfDeletion)
      else Done(id)
  }
}
