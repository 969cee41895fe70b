/** The contact form: a record of three text fields. Editing an input
    overwrites the field named by that input; submitting clears the form.
    The confirmation alert shown on submit is not modelled. */
module Contact {

  /** The names of the form's three inputs. */
  datatype Field = Name | Email | Message

  datatype FormData = FormData(name: string, email: string, message: string)

  /** The form as it starts and as submitting leaves it. */
  const EmptyForm: FormData := FormData("", "", "")

  function Get(d: FormData, f: Field): string
  {
    match f
    case Name => d.name
    case Email => d.email
    case Message => d.message
  }

  /** The record with one field replaced: that field reads the new value,
      the other two read as before. */
  function Update(d: FormData, f: Field, value: string): (r: FormData)
    ensures Get(r, f) == value
    ensures forall g :: g != f ==> Get(r, g) == Get(d, g)
  {
    match f
    case Name => d.(name := value)
    case Email => d.(email := value)
    case Message => d.(message := value)
  }

  /** A form is determined by what its three fields read. */
  lemma FieldsDetermineForm(a: FormData, b: FormData)
    requires forall f :: Get(a, f) == Get(b, f)
    ensures a == b
  {
    assert Get(a, Name) == Get(b, Name);
    assert Get(a, Email) == Get(b, Email);
    assert Get(a, Message) == Get(b, Message);
  }

  /** Edits of different fields do not interfere; of the same field, the
      last one wins. */
  lemma UpdatesCommute(d: FormData, f: Field, g: Field, u: string, v: string)
    ensures f != g ==> Update(Update(d, f, u), g, v) == Update(Update(d, g, v), f, u)
    ensures Update(Update(d, f, u), f, v) == Update(d, f, v)
  {
    if f != g {
      FieldsDetermineForm(Update(Update(d, f, u), g, v), Update(Update(d, g, v), f, u));
    }
    FieldsDetermineForm(Update(Update(d, f, u), f, v), Update(d, f, v));
  }

  class ContactForm {
    var name: string
    var email: string
    var message: string

    function Data(): FormData
      reads this
    {
      FormData(name, email, message)
    }

    constructor ()
      ensures Data() == EmptyForm
      ensures forall f :: Get(Data(), f) == ""
    {
      name, email, message := "", "", "";
    }

    /** An input changed: the field it names takes its value. */
    method HandleChange(field: Field, value: string)
      modifies this
      ensures Data() == Update(old(Data()), field, value)
      ensures Get(Data(), field) == value
      ensures forall g :: g != field ==> Get(Data(), g) == Get(old(Data()), g)
    {
      match field
      case Name => name := value;
      case Email => email := value;
      case Message => message := value;
    }

    /** Submit: every field is cleared, whatever the form held, so the form
      is back in its initial state and a second submit changes nothing. */
    method HandleSubmit()
      modifies this
      ensures Data() == EmptyForm
      ensures forall f :: Get(Data(), f) == ""
    {
      name, email, message := "", "", "";
    }
  }
}
