/** The pure helpers of the contact-creation form
    (components/contacts/create-contact-dialog.tsx): the Brazilian phone
    mask applied on every keystroke, the tag checkbox toggle, the custom
    field values kept as a dictionary in insertion order, and the arguments
    the form hands to `createContact`. */
module ContactForm {
  import opened Common
  import Contacts

  predicate IsDigit(c: char) { '0' <= c <= '9' }

  /** `value.replace(/\D/g, "")`: the decimal digits of `s`, in order. */
  function Digits(s: string): (d: string)
    ensures forall i :: 0 <= i < |d| ==> IsDigit(d[i])
    ensures |d| <= |s|
  {
    if s == [] then []
    else if IsDigit(s[0]) then [s[0]] + Digits(s[1..])
    else Digits(s[1..])
  }

  lemma {:induction false} DigitsOfDigits(d: string)
    requires forall i :: 0 <= i < |d| ==> IsDigit(d[i])
    ensures Digits(d) == d
  {
    if d != [] {
      DigitsOfDigits(d[1..]);
    }
  }

  lemma {:induction false} DigitsOfPunctuation(s: string)
    requires forall i :: 0 <= i < |s| ==> !IsDigit(s[i])
    ensures Digits(s) == []
  {
    if s != [] {
      DigitsOfPunctuation(s[1..]);
    }
  }

  lemma {:induction false} DigitsAppend(a: string, b: string)
    ensures Digits(a + b) == Digits(a) + Digits(b)
  {
    if a == [] {
      assert a + b == b;
    } else {
      assert (a + b)[1..] == a[1..] + b;
      DigitsAppend(a[1..], b);
    }
  }

  /** The mask applied to a string of digits: "DD", "(DD) DDDDD" or
      "(DD) DDDDD-DDDD", dropping digits past the eleventh. Character by
      character: the area code sits between the parentheses at 0 and 3, a
      space at 4 precedes the number, and from the eighth digit on a dash
      at 10 splits it; eleven digits give the 15 characters of
      "(11) 98765-4321". */
  function Mask(d: string): (r: string)
    ensures |d| <= 2 ==> r == d
    ensures 2 < |d| ==>
      && |r| == (if |d| <= 7 then |d| + 3 else if |d| <= 11 then |d| + 4 else 15)
      && r[0] == '(' && r[1] == d[0] && r[2] == d[1] && r[3] == ')' && r[4] == ' '
      && forall i :: 2 <= i < |d| && i < 7 ==> r[i + 3] == d[i]
    ensures 7 < |d| ==>
      && r[10] == '-'
      && forall i :: 7 <= i < |d| && i < 11 ==> r[i + 4] == d[i]
  {
    if |d| <= 2 then d
    else if |d| <= 7 then "(" + d[..2] + ") " + d[2..]
    else if |d| <= 11 then "(" + d[..2] + ") " + d[2..7] + "-" + d[7..]
    else "(" + d[..2] + ") " + d[2..7] + "-" + d[7..11]
  }

  /** formatPhoneBrazilian. */
  function FormatPhoneBrazilian(value: string): (r: string)
    ensures Digits(r) == Take(Digits(value), 11)
  {
    MaskKeepsDigits(Digits(value));
    Mask(Digits(value))
  }

  /** Punctuation between two runs of characters adds no digits. */
  lemma DigitsAround(x: string, p: string, y: string)
    requires forall i :: 0 <= i < |p| ==> !IsDigit(p[i])
    ensures Digits(x + p + y) == Digits(x) + Digits(y)
  {
    assert Digits(x + p) == Digits(x) by {
      DigitsOfPunctuation(p);
      DigitsAppend(x, p);
      assert Digits(x) + [] == Digits(x);
    }
    DigitsAppend(x + p, y);
  }

  lemma DigitsOfFramed(a: string, b: string)
    ensures Digits("(" + a + ") " + b) == Digits(a) + Digits(b)
  {
    DigitsAround([], "(", a);
    assert [] + "(" + a == "(" + a;
    DigitsAround("(" + a, ") ", b);
  }

  lemma DigitsOfDashed(a: string, b: string, c: string)
    ensures Digits("(" + a + ") " + b + "-" + c) == Digits(a) + Digits(b) + Digits(c)
  {
    DigitsOfFramed(a, b);
    DigitsAround("(" + a + ") " + b, "-", c);
  }

  /** The mask neither invents, reorders nor drops digits, except those past
      the eleventh. */
  lemma MaskKeepsDigits(d: string)
    requires forall i :: 0 <= i < |d| ==> IsDigit(d[i])
    ensures Digits(Mask(d)) == Take(d, 11)
  {
    if |d| <= 2 {
      DigitsOfDigits(d);
    } else if |d| <= 7 {
      MaskKeepsDigitsShort(d);
    } else {
      MaskKeepsDigitsLong(d);
    }
  }

  lemma MaskKeepsDigitsShort(d: string)
    requires forall i :: 0 <= i < |d| ==> IsDigit(d[i])
    requires 2 < |d| <= 7
    ensures Digits(Mask(d)) == d
  {
    var a, b := d[..2], d[2..];
    DigitsOfDigits(a);
    DigitsOfDigits(b);
    DigitsOfFramed(a, b);
    assert Mask(d) == "(" + a + ") " + b;
    assert a + b == d;
  }

  lemma MaskKeepsDigitsLong(d: string)
    requires forall i :: 0 <= i < |d| ==> IsDigit(d[i])
    requires 7 < |d|
    ensures Digits(Mask(d)) == Take(d, 11)
  {
    MaskOfFirstEleven(d);
    DashedDigits(Take(d, 11));
  }

  /** The digits of the dashed shape of 8 to 11 digits are those digits. */
  lemma DashedDigits(d: string)
    requires forall i :: 0 <= i < |d| ==> IsDigit(d[i])
    requires 7 < |d| <= 11
    ensures Digits(Mask(d)) == d
  {
    var a, b, c := d[..2], d[2..7], d[7..];
    DigitsOfDigits(a);
    DigitsOfDigits(b);
    DigitsOfDigits(c);
    DigitsOfDashed(a, b, c);
    assert a + b + c == d;
  }

  /** Only the first eleven digits decide the mask. */
  lemma MaskOfFirstEleven(d: string)
    ensures Mask(Take(d, 11)) == Mask(d)
  {
    if |d| > 11 {
      var t := Take(d, 11);
      assert t[..2] == d[..2] && t[2..7] == d[2..7] && t[7..] == d[7..11];
    }
  }

  /** Reformatting a formatted number leaves it as it is, so the mask can be
      applied on every keystroke. */
  lemma {:induction false} FormatIdempotent(value: string)
    ensures FormatPhoneBrazilian(FormatPhoneBrazilian(value)) == FormatPhoneBrazilian(value)
  {
    MaskOfFirstEleven(Digits(value));
  }

  /** handleTagToggle: a selected id is removed (every copy of it), an
      unselected one is appended. */
  function ToggleTag(selected: seq<Id>, tagId: Id): (r: seq<Id>)
    ensures tagId in r <==> tagId !in selected
    ensures forall x :: x != tagId ==> (x in r <==> x in selected)
    ensures tagId !in selected ==> r == selected + [tagId]
    ensures Distinct(selected) ==> Distinct(r)
  {
    if tagId in selected then
      var r := Filter(selected, (id: Id) => id != tagId);
      assert Distinct(selected) ==> Distinct(r) by {
        if Distinct(selected) {
          DistinctFilter(selected, (id: Id) => id != tagId);
        }
      }
      r
    else selected + [tagId]
  }

  lemma {:induction false} DistinctFilter(s: seq<Id>, p: Id -> bool)
    requires Distinct(s)
    ensures Distinct(Filter(s, p))
  {
    if s != [] {
      DistinctFilter(s[1..], p);
      assert s[0] !in s[1..];
    }
  }

  /** Toggling an unselected tag twice restores the selection exactly; a
      selected one comes back at the end, so a duplicate-free selection
      keeps the same elements. */
  lemma ToggleTwice(selected: seq<Id>, tagId: Id)
    ensures tagId !in selected ==> ToggleTag(ToggleTag(selected, tagId), tagId) == selected
    ensures Distinct(selected) ==>
      forall x :: x in ToggleTag(ToggleTag(selected, tagId), tagId) <==> x in selected
  {
    if tagId !in selected {
      FilterAppend(selected, [tagId], (id: Id) => id != tagId);
      FilterAllOf(selected, (id: Id) => id != tagId);
      FilterNone([tagId], (id: Id) => id != tagId);
    }
  }

  /** The custom field values: a dictionary keyed by field id, listed in
      the order the keys were first set (`Object.entries`). */
  type Values = seq<Contacts.CustomValueInput>

  predicate FieldsDistinct(vs: Values)
  {
    forall i, j :: 0 <= i < j < |vs| ==> vs[i].fieldId != vs[j].fieldId
  }

  /** `customValues[fieldId] || ""`: the value shown in a field's input. */
  function Shown(vs: Values, fieldId: Id): (v: string)
    requires FieldsDistinct(vs)
    ensures (forall i :: 0 <= i < |vs| ==> vs[i].fieldId != fieldId) ==> v == ""
    ensures forall i :: 0 <= i < |vs| && vs[i].fieldId == fieldId ==> v == vs[i].value
  {
    match FindIndex(vs, (e: Contacts.CustomValueInput) => e.fieldId == fieldId)
    case None => ""
    case Some(i) => vs[i].value
  }

  /** `{ ...prev, [fieldId]: value }`: an existing key keeps its place and
      takes the new value; a new key goes last. */
  function SetValue(vs: Values, fieldId: Id, value: string): (r: Values)
    requires FieldsDistinct(vs)
    ensures FieldsDistinct(r)
    ensures |r| >= |vs|
    ensures Shown(r, fieldId) == value
    ensures forall f :: f != fieldId ==> Shown(r, f) == Shown(vs, f)
    ensures forall i :: 0 <= i < |vs| ==> r[i].fieldId == vs[i].fieldId
    ensures (exists i :: 0 <= i < |vs| && vs[i].fieldId == fieldId) ==> |r| == |vs|
    ensures (forall i :: 0 <= i < |vs| ==> vs[i].fieldId != fieldId) ==> r == vs + [Contacts.CustomValueInput(fieldId, value)]
  {
    match FindIndex(vs, (e: Contacts.CustomValueInput) => e.fieldId == fieldId)
    case None =>
      var r := vs + [Contacts.CustomValueInput(fieldId, value)];
      assert r[|vs|].fieldId == fieldId;
      forall f | f != fieldId ensures Shown(r, f) == Shown(vs, f) {
        assert forall i :: 0 <= i < |vs| ==> r[i] == vs[i];
      }
      r
    case Some(k) =>
      var r := vs[k := Contacts.CustomValueInput(fieldId, value)];
      assert r[k].fieldId == fieldId;
      forall f | f != fieldId ensures Shown(r, f) == Shown(vs, f) {
        assert forall i :: 0 <= i < |r| && i != k ==> r[i] == vs[i];
      }
      r
  }

  /** The arguments the form passes to `createContact`: an empty email is
      sent as `null`, and the dictionary as its list of entries. */
  datatype Submission = Submission(name: string, phone: string, email: Option<string>, tagIds: seq<Id>,
                                   customValues: seq<Contacts.CustomValueInput>)

  function Submit(name: string, phone: string, email: string, selected: seq<Id>, vs: Values): (s: Submission)
    ensures s.email.None? <==> email == ""
    ensures s.email.Some? ==> s.email.value == email
    ensures s.name == name && s.phone == phone && s.tagIds == selected && s.customValues == vs
  {
    Submission(name, phone, if email == "" then None else Some(email), selected, vs)
  }
}
