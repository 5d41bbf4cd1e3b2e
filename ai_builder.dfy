/** The AI template builder of components/AIBuilderView.tsx: the prompt guard, the
    normalisation of the generator's reply into a stored template, and the error path. */
module AiBuilder {
  import opened Schema
  import opened Text
  import opened Wrappers

  const DefaultTitle := "New Form"
  const DefaultDescription := "AI Generated Form"
  const GenerateFailedMessage := "Could not generate form. Please try again."

  /** The generator's reply (a partial template): every part may be missing. The
      fields are taken as they arrive, any id they carry included. */
  datatype GeneratedForm = GeneratedForm(
    title: Option<string>,
    description: Option<string>,
    fields: Option<seq<FormField>>)

  /** `value || fallback` on an optional string. */
  function OrDefault(value: Option<string>, fallback: string): (r: string)
    ensures value.Some? && value.value != "" ==> r == value.value
    ensures value.None? || value.value == "" ==> r == fallback
  {
    if value.Some? && value.value != "" then value.value else fallback
  }

  /** The id given to the field at position `idx`: `f-{idx}-{now}`. */
  function FieldId(idx: nat, now: nat): string {
    "f-" + NatToString(idx) + "-" + NatToString(now)
  }

  /** In `f-{digits}-{rest}` the first '-' after the prefix follows the digits. */
  lemma DashAfterDigits(digits: string, rest: string)
    requires AllDigits(digits)
    ensures var id := "f-" + digits + "-" + rest;
            id[2 + |digits|] == '-' && forall k :: 2 <= k < 2 + |digits| ==> id[k] != '-'
  {
    var id := "f-" + digits + "-" + rest;
    forall k | 2 <= k < 2 + |digits| ensures id[k] != '-' {
      assert id[k] == digits[k - 2];
    }
  }

  /** A field id determines the position it was made for, whichever clock readings the
      two ids were made with. */
  lemma FieldIdInjective(i: nat, a: nat, j: nat, b: nat)
    ensures FieldId(i, a) == FieldId(j, b) ==> i == j
  {
    var x, y := NatToString(i), NatToString(j);
    var s, t := FieldId(i, a), FieldId(j, b);
    if s == t {
      assert s == "f-" + x + "-" + NatToString(a);
      assert t == "f-" + y + "-" + NatToString(b);
      // The first '-' after the prefix ends the index digits in both ids.
      DashAfterDigits(x, NatToString(a));
      DashAfterDigits(y, NatToString(b));
      assert s[2 + |x|] == '-' && t[2 + |y|] == '-';
      assert |x| == |y|;
      assert x == s[2..2 + |x|] == t[2..2 + |y|] == y;
      NatToStringInjective(i, j);
    }
  }

  /** `handleGenerate`'s template built from a reply at clock reading `now`: defaults
      for a missing or empty title/description, the fields in order with their
      attributes kept and their ids replaced. */
  function Normalize(reply: GeneratedForm, now: nat): (t: FormTemplate)
    ensures t.id == NatToString(now) && t.createdAt == now
    ensures t.title == OrDefault(reply.title, DefaultTitle)
    ensures t.description == OrDefault(reply.description, DefaultDescription)
    ensures reply.fields.None? ==> t.fields == []
    ensures reply.fields.Some? ==>
              && |t.fields| == |reply.fields.value|
              && forall i :: 0 <= i < |t.fields| ==>
                   t.fields[i] == reply.fields.value[i].(id := FieldId(i, now))
    ensures UniqueFieldIds(t.fields)
  {
    var source := if reply.fields.Some? then reply.fields.value else [];
    var fields := seq(|source|, i requires 0 <= i < |source| => source[i].(id := FieldId(i, now)));
    assert UniqueFieldIds(fields) by {
      forall i, j | 0 <= i < j < |fields| ensures fields[i].id != fields[j].id {
        FieldIdInjective(i, now, j, now);
      }
    }
    FormTemplate(NatToString(now), OrDefault(reply.title, DefaultTitle),
                 OrDefault(reply.description, DefaultDescription), fields, now)
  }

  /** The type tokens of the reply are stored unchecked: a field keeps whatever `type`
      string it came with, one of the eight or not. */
  lemma TypeTokensCopied(reply: GeneratedForm, now: nat, i: nat)
    requires reply.fields.Some? && i < |reply.fields.value|
    ensures Normalize(reply, now).fields[i].kind == reply.fields.value[i].kind
    ensures Normalize(reply, now).fields[i].Kind() == reply.fields.value[i].Kind()
  {
  }

  /** The builder view's state. */
  class Builder {
    var prompt: string
    var loading: bool
    var error: string

    constructor ()
      ensures prompt == "" && !loading && error == ""
    {
      prompt := "";
      loading := false;
      error := "";
    }

    /** Typing in the prompt box or picking a suggestion. */
    method SetPrompt(p: string)
      modifies this
      ensures prompt == p && loading == old(loading) && error == old(error)
    {
      prompt := p;
    }

    /** `handleGenerate` with the generator's `reply` and the clock reading `now`. A
        prompt that trims to nothing returns at once and changes nothing. Otherwise a
        reply yields the normalised template handed to `onAdd`, and a failure sets the
        error message and hands over nothing; loading ends either way. */
    method Generate(reply: Result<GeneratedForm>, now: nat) returns (added: Option<FormTemplate>)
      modifies this
      ensures prompt == old(prompt)
      ensures Trim(prompt) == "" ==> added == None && loading == old(loading) && error == old(error)
      ensures Trim(prompt) != "" ==> !loading
      ensures Trim(prompt) != "" && reply.Ok? ==> added == Some(Normalize(reply.value, now)) && error == ""
      ensures Trim(prompt) != "" && reply.Err? ==> added == None && error == GenerateFailedMessage
    {
      if Trim(prompt) == "" {
        return None;
      }
      loading := true;
      error := "";
      match reply {
        case Ok(form) =>
          added := Some(Normalize(form, now));
        case Err(_) =>
          error := GenerateFailedMessage;
          added := None;
      }
      loading := false;
    }
  }
}
