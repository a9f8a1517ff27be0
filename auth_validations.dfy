/** Field validators and per-form aggregators (src/lib/auth/auth-validations.ts). */
module AuthValidations {
  import opened Base
  import opened AuthTypes
  import opened Patterns

  datatype ValidationError = ValidationError(field: string, message: string)

  datatype ValidationResult = ValidationResult(isValid: bool, errors: seq<ValidationError>)

  const EmailRequired := "El correo electrónico es requerido"
  const EmailInvalid := "El correo electrónico no es válido"
  const PasswordRequired := "La contraseña es requerida"
  const PasswordTooShort := "La contraseña debe tener al menos 6 caracteres"
  const PasswordTooLong := "La contraseña no puede tener más de 128 caracteres"
  const NameRequired := "El nombre es requerido"
  const NameTooShort := "El nombre debe tener al menos 2 caracteres"
  const NameTooLong := "El nombre no puede tener más de 100 caracteres"
  const PhoneInvalid := "El número de teléfono no es válido"
  const PasswordsMismatch := "Las contraseñas no coinciden"
  const CurrentPasswordRequired := "La contraseña actual es requerida"
  const PasswordMustDiffer := "La nueva contraseña debe ser diferente a la actual"
  const BioTooLong := "La biografía no puede tener más de 500 caracteres"

  function ValidateEmail(email: string): (r: Option<ValidationError>)
    ensures email == "" ==> r == Some(ValidationError("email", EmailRequired))
    ensures email != "" ==> (r == None <==> EmailShape(email))
    ensures email != "" && r != None ==> r == Some(ValidationError("email", EmailInvalid))
  {
    EmailPatternIff(email);
    if email == "" then Some(ValidationError("email", EmailRequired))
    else if !Matches(EmailPattern, email) then Some(ValidationError("email", EmailInvalid))
    else None
  }

  function ValidatePassword(password: string, fieldName: string := "password"): (r: Option<ValidationError>)
    ensures r == None <==> 6 <= |password| <= 128
    ensures r != None ==> r.value.field == fieldName
    ensures password == "" ==> r == Some(ValidationError(fieldName, PasswordRequired))
    ensures 0 < |password| < 6 ==> r == Some(ValidationError(fieldName, PasswordTooShort))
    ensures |password| > 128 ==> r == Some(ValidationError(fieldName, PasswordTooLong))
  {
    if password == "" then Some(ValidationError(fieldName, PasswordRequired))
    else if |password| < 6 then Some(ValidationError(fieldName, PasswordTooShort))
    else if |password| > 128 then Some(ValidationError(fieldName, PasswordTooLong))
    else None
  }

  function ValidateName(name: string): (r: Option<ValidationError>)
    ensures r == None <==> 2 <= |name| <= 100
    ensures r != None ==> r.value.field == "name"
    ensures name == "" ==> r == Some(ValidationError("name", NameRequired))
    ensures |name| == 1 ==> r == Some(ValidationError("name", NameTooShort))
    ensures |name| > 100 ==> r == Some(ValidationError("name", NameTooLong))
  {
    if name == "" then Some(ValidationError("name", NameRequired))
    else if |name| < 2 then Some(ValidationError("name", NameTooShort))
    else if |name| > 100 then Some(ValidationError("name", NameTooLong))
    else None
  }

  function ValidatePhone(phone: string): (r: Option<ValidationError>)
    ensures phone == "" ==> r == None
    ensures phone != "" ==> (r == None <==> Matches(PhonePattern, phone))
    ensures r != None ==> r == Some(ValidationError("phone", PhoneInvalid))
    ensures phone != "" && r == None ==> 9 <= |phone| <= 23 && (phone[0] == '+' || '1' <= phone[0] <= '9')
    ensures phone != "" && r == None ==> forall i :: 0 <= i < |phone| ==> PhoneChar(phone[i])
  {
    if phone != "" && !Matches(PhonePattern, phone) then Some(ValidationError("phone", PhoneInvalid))
    else
      if phone != "" then PhoneMatchShape(phone); PhoneMatchLead(phone); None
      else None
  }

  // ---------------------------------------------------------------------------
  // Collecting the errors of a form

  /** The errors pushed, in order, by a sequence of `if (err) errors.push(err)` steps. */
  function Collect(checks: seq<Option<ValidationError>>): (r: seq<ValidationError>)
    ensures |r| <= |checks|
    ensures r == [] <==> forall k :: 0 <= k < |checks| ==> checks[k] == None
    ensures forall e :: e in r <==> Some(e) in checks
  {
    if checks == [] then []
    else (if checks[0].Some? then [checks[0].value] else []) + Collect(checks[1..])
  }

  /** Position of a field name in a form's field order (the order's length if absent). */
  function Rank(order: seq<string>, field: string): nat {
    if order == [] || order[0] == field then 0 else 1 + Rank(order[1..], field)
  }

  /** Every error is about a field of `order`, and errors appear in that order, each field at most once. */
  ghost predicate InFieldOrder(errors: seq<ValidationError>, order: seq<string>) {
    && (forall i :: 0 <= i < |errors| ==> errors[i].field in order)
    && (forall i, j :: 0 <= i < j < |errors| ==> Rank(order, errors[i].field) < Rank(order, errors[j].field))
  }

  /** Checks whose possible fields strictly follow `order` yield errors in that order. */
  ghost predicate ChecksInOrder(checks: seq<Option<ValidationError>>, order: seq<string>) {
    && (forall a :: 0 <= a < |checks| && checks[a].Some? ==> checks[a].value.field in order)
    && (forall a, b :: 0 <= a < b < |checks| && checks[a].Some? && checks[b].Some? ==>
          Rank(order, checks[a].value.field) < Rank(order, checks[b].value.field))
  }

  ghost predicate Distinct(order: seq<string>) {
    forall i, j :: 0 <= i < j < |order| ==> order[i] != order[j]
  }

  lemma {:induction false} RankOfDistinct(order: seq<string>, k: nat)
    requires Distinct(order) && k < |order|
    ensures Rank(order, order[k]) == k
  {
    if k > 0 {
      assert order[0] != order[k];
      assert Distinct(order[1..]) by {
        forall i, j | 0 <= i < j < |order[1..]| ensures order[1..][i] != order[1..][j] {
          assert order[1..][i] == order[i + 1] && order[1..][j] == order[j + 1];
        }
      }
      RankOfDistinct(order[1..], k - 1);
      assert order[1..][k - 1] == order[k];
    }
  }

  /** The k-th check can only report about the k-th field of a list of distinct fields. */
  lemma PositionalChecksInOrder(checks: seq<Option<ValidationError>>, order: seq<string>)
    requires |checks| == |order| && Distinct(order)
    requires forall k :: 0 <= k < |checks| && checks[k].Some? ==> checks[k].value.field == order[k]
    ensures ChecksInOrder(checks, order)
  {
    forall a, b | 0 <= a < b < |checks| && checks[a].Some? && checks[b].Some?
      ensures Rank(order, checks[a].value.field) < Rank(order, checks[b].value.field)
    {
      RankOfDistinct(order, a);
      RankOfDistinct(order, b);
    }
  }

  lemma ChecksInOrderTail(checks: seq<Option<ValidationError>>, order: seq<string>)
    requires checks != [] && ChecksInOrder(checks, order)
    ensures ChecksInOrder(checks[1..], order)
  {
    var tail := checks[1..];
    forall a, b | 0 <= a < b < |tail| && tail[a].Some? && tail[b].Some?
      ensures Rank(order, tail[a].value.field) < Rank(order, tail[b].value.field)
    {
      assert tail[a] == checks[a + 1] && tail[b] == checks[b + 1];
    }
    forall a | 0 <= a < |tail| && tail[a].Some? ensures tail[a].value.field in order {
      assert tail[a] == checks[a + 1];
    }
  }

  lemma HeadRanksFirst(checks: seq<Option<ValidationError>>, order: seq<string>, e: ValidationError)
    requires checks != [] && checks[0].Some? && ChecksInOrder(checks, order)
    requires e in Collect(checks[1..])
    ensures Rank(order, checks[0].value.field) < Rank(order, e.field)
  {
    var b :| 0 <= b < |checks[1..]| && checks[1..][b] == Some(e);
    assert checks[b + 1] == Some(e);
  }

  /** An error ranking before every error of an ordered list can go in front of it. */
  lemma PrependInOrder(h: ValidationError, rest: seq<ValidationError>, order: seq<string>)
    requires h.field in order && InFieldOrder(rest, order)
    requires forall e :: e in rest ==> Rank(order, h.field) < Rank(order, e.field)
    ensures InFieldOrder([h] + rest, order)
  {
    var r := [h] + rest;
    forall i | 0 <= i < |r| ensures r[i].field in order {
      if i > 0 { assert r[i] == rest[i - 1]; }
    }
    forall i, j | 0 <= i < j < |r| ensures Rank(order, r[i].field) < Rank(order, r[j].field) {
      assert r[j] == rest[j - 1] && r[j] in rest;
      if i > 0 { assert r[i] == rest[i - 1]; }
    }
  }

  lemma {:induction false} CollectInOrder(checks: seq<Option<ValidationError>>, order: seq<string>)
    requires ChecksInOrder(checks, order)
    ensures InFieldOrder(Collect(checks), order)
  {
    if checks != [] {
      var tail := checks[1..];
      ChecksInOrderTail(checks, order);
      CollectInOrder(tail, order);
      var rt := Collect(tail);
      if checks[0].Some? {
        forall e | e in rt ensures Rank(order, checks[0].value.field) < Rank(order, e.field) {
          HeadRanksFirst(checks, order, e);
        }
        PrependInOrder(checks[0].value, rt, order);
        assert Collect(checks) == [checks[0].value] + rt;
      } else {
        assert Collect(checks) == rt;
      }
    }
  }

  /** `{ isValid: errors.length === 0, errors }` */
  function ResultOf(errors: seq<ValidationError>): (r: ValidationResult)
    ensures r.errors == errors && (r.isValid <==> errors == [])
  {
    ValidationResult(|errors| == 0, errors)
  }

  // ---------------------------------------------------------------------------
  // The five forms

  const LoginOrder: seq<string> := ["email", "password"]
  const RegisterOrder: seq<string> := ["name", "email", "password", "confirmPassword"]
  const ProfileOrder: seq<string> := ["name", "email", "phone", "bio"]

  function LoginChecks(data: LoginData): seq<Option<ValidationError>> {
    [ValidateEmail(data.email), ValidatePassword(data.password)]
  }

  function ValidateLoginData(data: LoginData): (r: ValidationResult)
    ensures r.isValid <==> r.errors == []
    ensures r.isValid <==> data.email != "" && EmailShape(data.email) && 6 <= |data.password| <= 128
    ensures forall e :: e in r.errors <==> Some(e) == ValidateEmail(data.email) || Some(e) == ValidatePassword(data.password)
    ensures |r.errors| <= 2 && InFieldOrder(r.errors, LoginOrder)
  {
    PositionalChecksInOrder(LoginChecks(data), LoginOrder);
    CollectInOrder(LoginChecks(data), LoginOrder);
    ResultOf(Collect(LoginChecks(data)))
  }

  function MismatchCheck(password: string, confirmPassword: string): Option<ValidationError> {
    if password != confirmPassword then Some(ValidationError("confirmPassword", PasswordsMismatch)) else None
  }

  function RegisterChecks(data: RegisterData): seq<Option<ValidationError>> {
    [ValidateName(data.name), ValidateEmail(data.email), ValidatePassword(data.password),
     MismatchCheck(data.password, data.confirmPassword)]
  }

  function ValidateRegisterData(data: RegisterData): (r: ValidationResult)
    ensures r.isValid <==> r.errors == []
    ensures r.isValid <==>
      && 2 <= |data.name| <= 100
      && data.email != "" && EmailShape(data.email)
      && 6 <= |data.password| <= 128
      && data.password == data.confirmPassword
    ensures data.password != data.confirmPassword ==> ValidationError("confirmPassword", PasswordsMismatch) in r.errors
    ensures 0 < |data.password| < 6 ==> ValidationError("password", PasswordTooShort) in r.errors
    ensures forall e :: e in r.errors <==>
      || Some(e) == ValidateName(data.name)
      || Some(e) == ValidateEmail(data.email)
      || Some(e) == ValidatePassword(data.password)
      || (e == ValidationError("confirmPassword", PasswordsMismatch) && data.password != data.confirmPassword)
    ensures |r.errors| <= 4 && InFieldOrder(r.errors, RegisterOrder)
  {
    var checks := RegisterChecks(data);
    assert checks[2] == ValidatePassword(data.password);
    assert checks[3] == MismatchCheck(data.password, data.confirmPassword);
    PositionalChecksInOrder(checks, RegisterOrder);
    CollectInOrder(checks, RegisterOrder);
    ResultOf(Collect(checks))
  }

  function ValidatePasswordResetData(data: PasswordResetData): (r: ValidationResult)
    ensures r.isValid <==> r.errors == []
    ensures r.isValid <==> data.email != "" && EmailShape(data.email)
    ensures |r.errors| <= 1 && forall e :: e in r.errors ==> e.field == "email"
    ensures r.errors == if ValidateEmail(data.email).Some? then [ValidateEmail(data.email).value] else []
  {
    ResultOf(Collect([ValidateEmail(data.email)]))
  }

  function PasswordUpdateChecks(data: PasswordUpdateData): seq<Option<ValidationError>> {
    [ if !Truthy(data.token) && !Truthy(data.currentPassword)
      then Some(ValidationError("currentPassword", CurrentPasswordRequired)) else None,
      ValidatePassword(data.newPassword, "newPassword"),
      MismatchCheck(data.newPassword, data.confirmPassword),
      if Truthy(data.currentPassword) && data.currentPassword.value == data.newPassword
      then Some(ValidationError("newPassword", PasswordMustDiffer)) else None ]
  }

  /** The position of a password-update error among the four checks, in the order they run:
      the three messages of the new-password validator share position 1. */
  function UpdateSlot(e: ValidationError): nat {
    if e.message == CurrentPasswordRequired then 0
    else if e.message == PasswordsMismatch then 2
    else if e.message == PasswordMustDiffer then 3
    else 1
  }

  /** Each error comes from a later check than the one before it, so no check reports twice. */
  ghost predicate SlotsIncrease(errors: seq<ValidationError>) {
    forall k, l :: 0 <= k < l < |errors| ==> UpdateSlot(errors[k]) < UpdateSlot(errors[l])
  }

  ghost predicate SlotsFrom(checks: seq<Option<ValidationError>>, base: nat) {
    forall k :: 0 <= k < |checks| && checks[k].Some? ==> UpdateSlot(checks[k].value) == base + k
  }

  lemma SlotsFromTail(checks: seq<Option<ValidationError>>, base: nat)
    requires checks != [] && SlotsFrom(checks, base)
    ensures SlotsFrom(checks[1..], base + 1)
  {
    var tail := checks[1..];
    forall k | 0 <= k < |tail| && tail[k].Some? ensures UpdateSlot(tail[k].value) == base + 1 + k {
      assert tail[k] == checks[k + 1];
    }
  }

  lemma CollectedSlotBound(checks: seq<Option<ValidationError>>, base: nat, e: ValidationError)
    requires SlotsFrom(checks, base) && e in Collect(checks)
    ensures base <= UpdateSlot(e)
  {
    var k :| 0 <= k < |checks| && checks[k] == Some(e);
  }

  /** Checks whose k-th entry can only report at position `base + k` collect errors in position order. */
  lemma {:induction false} CollectBySlot(checks: seq<Option<ValidationError>>, base: nat)
    requires SlotsFrom(checks, base)
    ensures SlotsIncrease(Collect(checks))
  {
    if checks != [] {
      var tail := checks[1..];
      SlotsFromTail(checks, base);
      CollectBySlot(tail, base + 1);
      var r, rt := Collect(checks), Collect(tail);
      if checks[0].Some? {
        assert r == [checks[0].value] + rt;
        forall k, l | 0 <= k < l < |r| ensures UpdateSlot(r[k]) < UpdateSlot(r[l]) {
          assert r[l] == rt[l - 1];
          CollectedSlotBound(tail, base + 1, r[l]);
          if k > 0 { assert r[k] == rt[k - 1]; }
        }
      } else {
        assert r == rt;
      }
    }
  }

  /** The check at index k of `PasswordUpdateChecks` reports at position k. */
  lemma PasswordUpdateSlots(data: PasswordUpdateData)
    ensures SlotsIncrease(Collect(PasswordUpdateChecks(data)))
  {
    var checks := PasswordUpdateChecks(data);
    assert CurrentPasswordRequired != PasswordsMismatch && CurrentPasswordRequired != PasswordMustDiffer;
    assert PasswordRequired != CurrentPasswordRequired && PasswordRequired != PasswordsMismatch
      && PasswordRequired != PasswordMustDiffer;
    assert PasswordTooShort != CurrentPasswordRequired && PasswordTooShort != PasswordsMismatch
      && PasswordTooShort != PasswordMustDiffer;
    assert PasswordTooLong != CurrentPasswordRequired && PasswordTooLong != PasswordsMismatch
      && PasswordTooLong != PasswordMustDiffer;
    assert PasswordMustDiffer != PasswordsMismatch;
    assert checks[1] == ValidatePassword(data.newPassword, "newPassword");
    CollectBySlot(checks, 0);
  }

  // PasswordUpdateErrors, PasswordUpdateNamedErrors and PasswordUpdateValidity hold the parts of
  // the proof of ValidatePasswordUpdateData's contract; proved inside it, they exceed the
  // resource limit.

  lemma PasswordUpdateErrors(data: PasswordUpdateData)
    ensures forall e :: e in Collect(PasswordUpdateChecks(data)) <==>
      || (e == ValidationError("currentPassword", CurrentPasswordRequired) && !Truthy(data.token) && !Truthy(data.currentPassword))
      || Some(e) == ValidatePassword(data.newPassword, "newPassword")
      || (e == ValidationError("confirmPassword", PasswordsMismatch) && data.newPassword != data.confirmPassword)
      || (e == ValidationError("newPassword", PasswordMustDiffer)
          && Truthy(data.currentPassword) && data.currentPassword.value == data.newPassword)
  {
    var checks := PasswordUpdateChecks(data);
    assert checks[1] == ValidatePassword(data.newPassword, "newPassword");
  }

  lemma PasswordUpdateValidity(data: PasswordUpdateData)
    ensures Collect(PasswordUpdateChecks(data)) == [] <==>
      && (Truthy(data.token) || Truthy(data.currentPassword))
      && 6 <= |data.newPassword| <= 128
      && data.newPassword == data.confirmPassword
      && !(Truthy(data.currentPassword) && data.currentPassword.value == data.newPassword)
  {
    var checks := PasswordUpdateChecks(data);
    assert checks[1] == ValidatePassword(data.newPassword, "newPassword");
  }

  lemma PasswordUpdateNamedErrors(data: PasswordUpdateData)
    ensures var errors := Collect(PasswordUpdateChecks(data));
      && (ValidationError("currentPassword", CurrentPasswordRequired) in errors
          <==> !Truthy(data.token) && !Truthy(data.currentPassword))
      && (ValidationError("newPassword", PasswordMustDiffer) in errors
          <==> Truthy(data.currentPassword) && data.currentPassword.value == data.newPassword)
      && (ValidationError("confirmPassword", PasswordsMismatch) in errors
          <==> data.newPassword != data.confirmPassword)
  {
    var checks := PasswordUpdateChecks(data);
    var current := ValidationError("currentPassword", CurrentPasswordRequired);
    var differ := ValidationError("newPassword", PasswordMustDiffer);
    var mismatch := ValidationError("confirmPassword", PasswordsMismatch);
    assert checks[1] == ValidatePassword(data.newPassword, "newPassword");
    assert Some(current) in checks <==> checks[0] == Some(current) by {
      assert "currentPassword" != "newPassword" && "currentPassword" != "confirmPassword";
    }
    assert Some(differ) in checks <==> checks[3] == Some(differ) by {
      assert PasswordMustDiffer != PasswordRequired && PasswordMustDiffer != PasswordTooShort
        && PasswordMustDiffer != PasswordTooLong;
    }
    assert Some(mismatch) in checks <==> checks[2] == Some(mismatch);
  }

  function ValidatePasswordUpdateData(data: PasswordUpdateData): (r: ValidationResult)
    ensures r.isValid <==> r.errors == []
    ensures ValidationError("currentPassword", CurrentPasswordRequired) in r.errors
      <==> !Truthy(data.token) && !Truthy(data.currentPassword)
    ensures ValidationError("newPassword", PasswordMustDiffer) in r.errors
      <==> Truthy(data.currentPassword) && data.currentPassword.value == data.newPassword
    ensures ValidationError("confirmPassword", PasswordsMismatch) in r.errors
      <==> data.newPassword != data.confirmPassword
    ensures r.isValid <==>
      && (Truthy(data.token) || Truthy(data.currentPassword))
      && 6 <= |data.newPassword| <= 128
      && data.newPassword == data.confirmPassword
      && !(Truthy(data.currentPassword) && data.currentPassword.value == data.newPassword)
    ensures forall e :: e in r.errors <==>
      || (e == ValidationError("currentPassword", CurrentPasswordRequired) && !Truthy(data.token) && !Truthy(data.currentPassword))
      || Some(e) == ValidatePassword(data.newPassword, "newPassword")
      || (e == ValidationError("confirmPassword", PasswordsMismatch) && data.newPassword != data.confirmPassword)
      || (e == ValidationError("newPassword", PasswordMustDiffer)
          && Truthy(data.currentPassword) && data.currentPassword.value == data.newPassword)
    ensures |r.errors| <= 4 && SlotsIncrease(r.errors)
  {
    PasswordUpdateErrors(data);
    PasswordUpdateValidity(data);
    PasswordUpdateSlots(data);
    PasswordUpdateNamedErrors(data);
    ResultOf(Collect(PasswordUpdateChecks(data)))
  }

  function BioCheck(bio: string): Option<ValidationError> {
    if bio != "" && |bio| > 500 then Some(ValidationError("bio", BioTooLong)) else None
  }

  function ProfileChecks(data: ProfileData): seq<Option<ValidationError>> {
    [ValidateName(data.name), ValidateEmail(data.email), ValidatePhone(data.phone), BioCheck(data.bio)]
  }

  // ProfileValidity and ProfileFieldErrors split the proof of ValidateProfileData's contract
  // in two; proved inside it, they exceed the resource limit.

  lemma ProfileValidity(data: ProfileData)
    ensures Collect(ProfileChecks(data)) == [] <==>
      && 2 <= |data.name| <= 100
      && data.email != "" && EmailShape(data.email)
      && (data.phone == "" || Matches(PhonePattern, data.phone))
      && |data.bio| <= 500
  {
  }

  lemma ProfileFieldErrors(data: ProfileData)
    ensures var errors := Collect(ProfileChecks(data));
      && (data.phone == "" ==> forall e :: e in errors ==> e.field != "phone")
      && (forall e :: e in errors && e.field == "bio" ==> e.message == BioTooLong)
      && ((exists e :: e in errors && e.field == "bio") <==> |data.bio| > 500)
      && (forall e :: e in errors <==>
            || Some(e) == ValidateName(data.name)
            || Some(e) == ValidateEmail(data.email)
            || Some(e) == ValidatePhone(data.phone)
            || (e == ValidationError("bio", BioTooLong) && |data.bio| > 500))
  {
    var checks := ProfileChecks(data);
    assert checks[3] == BioCheck(data.bio);
    if |data.bio| > 500 {
      assert ValidationError("bio", BioTooLong) in Collect(checks);
    }
  }

  function ValidateProfileData(data: ProfileData): (r: ValidationResult)
    ensures r.isValid <==> r.errors == []
    ensures r.isValid <==>
      && 2 <= |data.name| <= 100
      && data.email != "" && EmailShape(data.email)
      && (data.phone == "" || Matches(PhonePattern, data.phone))
      && |data.bio| <= 500
    ensures data.phone == "" ==> forall e :: e in r.errors ==> e.field != "phone"
    ensures forall e :: e in r.errors && e.field == "bio" ==> e.message == BioTooLong
    ensures (exists e :: e in r.errors && e.field == "bio") <==> |data.bio| > 500
    ensures forall e :: e in r.errors <==>
      || Some(e) == ValidateName(data.name)
      || Some(e) == ValidateEmail(data.email)
      || Some(e) == ValidatePhone(data.phone)
      || (e == ValidationError("bio", BioTooLong) && |data.bio| > 500)
    ensures |r.errors| <= 4 && InFieldOrder(r.errors, ProfileOrder)
  {
    var checks := ProfileChecks(data);
    PositionalChecksInOrder(checks, ProfileOrder);
    CollectInOrder(checks, ProfileOrder);
    ProfileValidity(data);
    ProfileFieldErrors(data);
    ResultOf(Collect(checks))
  }

  // ---------------------------------------------------------------------------
  // Joining messages for the session error

  function SumLengths(parts: seq<string>): nat {
    if parts == [] then 0 else |parts[0]| + SumLengths(parts[1..])
  }

  /** `parts.join(sep)` */
  function Join(parts: seq<string>, sep: string): (r: string)
    ensures parts == [] ==> r == ""
    ensures |parts| == 1 ==> r == parts[0]
    ensures |r| == SumLengths(parts) + (if parts == [] then 0 else (|parts| - 1) * |sep|)
  {
    if parts == [] then ""
    else if |parts| == 1 then parts[0]
    else parts[0] + sep + Join(parts[1..], sep)
  }

  /** Every part occurs, as a contiguous piece, in the joined text. */
  lemma {:induction false} JoinContains(parts: seq<string>, sep: string, k: nat)
    requires k < |parts|
    ensures exists pre, post :: Join(parts, sep) == pre + parts[k] + post
  {
    if |parts| == 1 {
      assert Join(parts, sep) == [] + parts[0] + [];
    } else if k == 0 {
      assert Join(parts, sep) == [] + parts[0] + (sep + Join(parts[1..], sep));
    } else {
      JoinContains(parts[1..], sep, k - 1);
      var pre, post :| Join(parts[1..], sep) == pre + parts[1..][k - 1] + post;
      assert Join(parts, sep) == (parts[0] + sep + pre) + parts[k] + post;
    }
  }

  function Messages(errors: seq<ValidationError>): (ms: seq<string>)
    ensures |ms| == |errors| && forall i :: 0 <= i < |errors| ==> ms[i] == errors[i].message
  {
    if errors == [] then [] else [errors[0].message] + Messages(errors[1..])
  }

  /** `validation.errors.map(e => e.message).join(', ')` */
  function JoinMessages(errors: seq<ValidationError>): (r: string)
    ensures errors == [] ==> r == ""
    ensures |errors| == 1 ==> r == errors[0].message
  {
    Join(Messages(errors), ", ")
  }

  /** The message of every error appears in the joined failure message. */
  lemma JoinMessagesContains(errors: seq<ValidationError>, e: ValidationError)
    requires e in errors
    ensures exists pre, post :: JoinMessages(errors) == pre + e.message + post
  {
    var k :| 0 <= k < |errors| && errors[k] == e;
    JoinContains(Messages(errors), ", ", k);
  }
}
