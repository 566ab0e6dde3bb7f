/** The two-page registration form: page 1 holds five personal fields, page 2 five address
    fields; Next moves on only when every personal field is non-empty, and completing needs every
    address field non-empty. The checks are for emptiness only: nothing is trimmed. */
module RegisterForm {

  datatype FormData = FormData(
    firstName: string, lastName: string, dateOfBirth: string, gender: string, bloodGroup: string,
    pinCode: string, flatHouseNo: string, areaStreetVillage: string, city: string, state: string)

  /** The ten fields, by name. */
  datatype Field =
    | FirstName | LastName | DateOfBirth | Gender | BloodGroup
    | PinCode | FlatHouseNo | AreaStreetVillage | City | State

  /** The fields of page 1. */
  predicate IsPersonal(field: Field) {
    field.FirstName? || field.LastName? || field.DateOfBirth? || field.Gender? || field.BloodGroup?
  }

  function Get(f: FormData, field: Field): string {
    match field
    case FirstName => f.firstName
    case LastName => f.lastName
    case DateOfBirth => f.dateOfBirth
    case Gender => f.gender
    case BloodGroup => f.bloodGroup
    case PinCode => f.pinCode
    case FlatHouseNo => f.flatHouseNo
    case AreaStreetVillage => f.areaStreetVillage
    case City => f.city
    case State => f.state
  }

  /** `setFormData({ ...formData, <field>: v })`: that field takes the new value and every
      other field keeps its own. */
  function Set(f: FormData, field: Field, v: string): (r: FormData)
    ensures Get(r, field) == v
    ensures forall other :: other != field ==> Get(r, other) == Get(f, other)
  {
    match field
    case FirstName => f.(firstName := v)
    case LastName => f.(lastName := v)
    case DateOfBirth => f.(dateOfBirth := v)
    case Gender => f.(gender := v)
    case BloodGroup => f.(bloodGroup := v)
    case PinCode => f.(pinCode := v)
    case FlatHouseNo => f.(flatHouseNo := v)
    case AreaStreetVillage => f.(areaStreetVillage := v)
    case City => f.(city := v)
    case State => f.(state := v)
  }

  /** The form the screen opens with. */
  function EmptyForm(): FormData {
    FormData("", "", "", "", "", "", "", "", "", "")
  }

  lemma EmptyFormIsEmpty(field: Field)
    ensures Get(EmptyForm(), field) == ""
  {
  }

  /** The test of `handleNextPage`: none of the five personal fields is the empty string. */
  predicate PersonalComplete(f: FormData) {
    f.firstName != "" && f.lastName != "" && f.dateOfBirth != "" && f.gender != "" && f.bloodGroup != ""
  }

  /** The test of `handleCompleteRegistration`: none of the five address fields is empty. */
  predicate AddressComplete(f: FormData) {
    f.pinCode != "" && f.flatHouseNo != "" && f.areaStreetVillage != "" && f.city != "" && f.state != ""
  }

  /** Page 1 passes exactly when every personal field is non-empty, page 2 exactly when every
      other field is. */
  lemma CompletenessByField(f: FormData)
    ensures PersonalComplete(f) <==> forall field :: IsPersonal(field) ==> Get(f, field) != ""
    ensures AddressComplete(f) <==> forall field :: !IsPersonal(field) ==> Get(f, field) != ""
  {
    if !PersonalComplete(f) {
      var field := if f.firstName == "" then FirstName else if f.lastName == "" then LastName
        else if f.dateOfBirth == "" then DateOfBirth else if f.gender == "" then Gender else BloodGroup;
      assert IsPersonal(field) && Get(f, field) == "";
    }
    if !AddressComplete(f) {
      var field := if f.pinCode == "" then PinCode else if f.flatHouseNo == "" then FlatHouseNo
        else if f.areaStreetVillage == "" then AreaStreetVillage else if f.city == "" then City else State;
      assert !IsPersonal(field) && Get(f, field) == "";
    }
  }

  /** Editing a field of one page does not change whether the other page passes. */
  lemma ChecksIndependent(f: FormData, field: Field, v: string)
    ensures IsPersonal(field) ==> AddressComplete(Set(f, field, v)) == AddressComplete(f)
    ensures !IsPersonal(field) ==> PersonalComplete(Set(f, field, v)) == PersonalComplete(f)
  {
    CompletenessByField(f);
    CompletenessByField(Set(f, field, v));
  }

  /** No trimming: fields holding only a space pass both checks. */
  lemma BlankFieldsPass()
    ensures PersonalComplete(FormData(" ", " ", " ", " ", " ", "", "", "", "", ""))
    ensures AddressComplete(FormData("", "", "", "", "", " ", " ", " ", " ", " "))
  {
  }

  /** What a press of the footer button leads to. */
  datatype Outcome =
    | PersonalMissing  // "Please fill all personal details"
    | MovedToAddress   // page 2
    | AddressMissing   // "Please fill all address details"
    | Registered       // "Registration completed!", then the subscription screen

  /** The action the footer button is wired to. */
  datatype FooterAction = NextPageAction | CompleteAction

  /** `page === 1 ? handleNextPage : handleCompleteRegistration`. */
  function FooterFor(page: nat): (a: FooterAction)
    ensures a == NextPageAction <==> page == 1
  {
    if page == 1 then NextPageAction else CompleteAction
  }

  /** The footer's label. */
  function FooterLabel(page: nat): (s: string)
    ensures s == "Next" <==> FooterFor(page) == NextPageAction
    ensures s == "Complete Registration" <==> FooterFor(page) == CompleteAction
  {
    if page == 1 then "Next" else "Complete Registration"
  }

  /** The screen's state: the page shown and the form. */
  class RegisterScreen {
    var page: nat
    var form: FormData

    ghost predicate Valid()
      reads this
    {
      page == 1 || page == 2
    }

    /** The form opens on page 1 with all ten fields empty. */
    constructor ()
      ensures Valid() && page == 1 && form == EmptyForm()
    {
      page := 1;
      form := EmptyForm();
    }

    /** Typing or picking a value in one field. */
    method Edit(field: Field, v: string)
      modifies this
      ensures form == Set(old(form), field, v) && page == old(page)
    {
      form := Set(form, field, v);
    }

    /** `handleNextPage`: on to page 2 exactly when the personal fields are all non-empty;
        otherwise an alert and the page stays. */
    method NextPage() returns (r: Outcome)
      modifies this
      ensures r == MovedToAddress <==> PersonalComplete(old(form))
      ensures r == MovedToAddress || r == PersonalMissing
      ensures page == (if r == MovedToAddress then 2 else old(page))
      ensures form == old(form)
    {
      if !PersonalComplete(form) {
        return PersonalMissing;
      }
      page := 2;
      r := MovedToAddress;
    }

    /** `handleCompleteRegistration`: succeeds exactly when the address fields are all
        non-empty, whatever page 1 holds; the form and the page stay as they are. */
    method CompleteRegistration() returns (r: Outcome)
      ensures r == Registered <==> AddressComplete(form)
      ensures r == Registered || r == AddressMissing
    {
      if !AddressComplete(form) {
        return AddressMissing;
      }
      r := Registered;
    }

    /** The footer button: Next on page 1, Complete Registration after. The page never goes back
        from 2 to 1. */
    method PressFooter() returns (r: Outcome)
      requires Valid()
      modifies this
      ensures Valid() && form == old(form)
      ensures old(page) == 1 ==>
        (r == MovedToAddress <==> PersonalComplete(form)) && (r == MovedToAddress || r == PersonalMissing)
      ensures old(page) == 1 ==> page == (if r == MovedToAddress then 2 else 1)
      ensures old(page) == 2 ==>
        page == 2 && (r == Registered <==> AddressComplete(form)) && (r == Registered || r == AddressMissing)
    {
      if FooterFor(page) == NextPageAction {
        r := NextPage();
      } else {
        r := CompleteRegistration();
      }
    }
  }
}
