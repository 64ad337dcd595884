/**
 * `obtenerNumeroReal`: the best-effort resolution of a sender's phone number
 * from the message's fields, its raw `_data` record and, failing those, a
 * lookup in the WhatsApp Web page's contact store.
 */
module Identity {
  import opened Wrappers
  import opened JsText

  /** The fields of a message's raw `_data` record that the bot reads. */
  datatype RawData = RawData(
    idParticipant: Option<string>,  // _data.id.participant
    participant: Option<string>,    // _data.participant
    notifyName: Option<string>)     // _data.notifyName

  /** A string-or-undefined JavaScript value taken as a condition: defined and non-empty. */
  predicate Truthy(o: Option<string>) {
    o.Some? && o.value != ""
  }

  /** A defined identifier in the phone-linked `@c.us` form. */
  predicate IsPhoneId(o: Option<string>) {
    o.Some? && Includes(o.value, "@c.us")
  }

  /** The sentinel returned when no identifier is known. */
  const Unknown: string := "Desconocido"

  /** `msg.author || msg.from`: the author in a group, the sender otherwise. */
  function Candidate(author: Option<string>, from: Option<string>): Option<string> {
    if Truthy(author) then author else from
  }

  /**
   * The resolver's chain of guarded returns, first success wins:
   * (1) a message sent by the bot itself, when the client knows its own
   *     `wid`, gives that `wid.user` as it is;
   * (2) an `@c.us` candidate gives its digits;
   * (3) an `@c.us` `_data.id.participant`, then `_data.participant`, gives its digits;
   * (4) a non-empty string from the page lookup gives its digits; without a
   *     candidate the page script throws on `undefined` and yields `null`;
   * (5) otherwise the candidate's digits, or `Unknown` without a candidate.
   * `ownUser` is `client.info.wid.user` when `client.info.wid` exists, and
   * `lookup` is what the in-page evaluation returned when it returned a string.
   */
  function ObtenerNumeroReal(fromMe: bool, ownUser: Option<string>,
                             author: Option<string>, from: Option<string>,
                             data: Option<RawData>, lookup: Option<string>): string
  {
    var candidate := Candidate(author, from);
    if fromMe && ownUser.Some? then ownUser.value
    else if IsPhoneId(candidate) then StripNonDigits(candidate.value)
    else if data.Some? && IsPhoneId(data.value.idParticipant) then StripNonDigits(data.value.idParticipant.value)
    else if data.Some? && IsPhoneId(data.value.participant) then StripNonDigits(data.value.participant.value)
    else if candidate.Some? && Truthy(lookup) then StripNonDigits(lookup.value)
    else if Truthy(candidate) then StripNonDigits(candidate.value)
    else Unknown
  }

  /** Some source in the `@c.us` form is present, so the page lookup is never needed. */
  predicate HasPhoneSource(author: Option<string>, from: Option<string>, data: Option<RawData>) {
    IsPhoneId(Candidate(author, from))
    || (data.Some? && (IsPhoneId(data.value.idParticipant) || IsPhoneId(data.value.participant)))
  }

  /** Except for the bot's own `wid.user`, the result is a string of digits or the sentinel. */
  lemma ResolvedIsDigitsOrUnknown(fromMe: bool, ownUser: Option<string>,
                                  author: Option<string>, from: Option<string>,
                                  data: Option<RawData>, lookup: Option<string>)
    requires !(fromMe && ownUser.Some?)
    ensures var r := ObtenerNumeroReal(fromMe, ownUser, author, from, data, lookup);
            AllDigits(r) || r == Unknown
  {
  }

  /**
   * The sentinel comes out exactly when there is no candidate, no `@c.us`
   * participant and no lookup result for a defined candidate: every other
   * branch gives digits only.
   */
  lemma UnknownExactlyWithoutSources(fromMe: bool, ownUser: Option<string>,
                                     author: Option<string>, from: Option<string>,
                                     data: Option<RawData>, lookup: Option<string>)
    requires !(fromMe && ownUser.Some?)
    ensures ObtenerNumeroReal(fromMe, ownUser, author, from, data, lookup) == Unknown
            <==> && !Truthy(Candidate(author, from)) && !HasPhoneSource(author, from, data)
                 && !(Candidate(author, from).Some? && Truthy(lookup))
  {
    var r := ObtenerNumeroReal(fromMe, ownUser, author, from, data, lookup);
    assert !IsDigit(Unknown[0]);
    if IsPhoneId(Candidate(author, from)) {
      assert Truthy(Candidate(author, from));
    }
    if r == Unknown {
      assert !AllDigits(r);
    }
  }

  /** When an `@c.us` source is present the page lookup does not influence the result. */
  lemma LookupOnlyAsFallback(fromMe: bool, ownUser: Option<string>,
                             author: Option<string>, from: Option<string>,
                             data: Option<RawData>, lookup1: Option<string>, lookup2: Option<string>)
    requires HasPhoneSource(author, from, data)
    ensures ObtenerNumeroReal(fromMe, ownUser, author, from, data, lookup1)
            == ObtenerNumeroReal(fromMe, ownUser, author, from, data, lookup2)
  {
  }

  /** The direct `@c.us` candidate wins over the raw metadata and the lookup, digits only. */
  lemma DirectIdWins(author: Option<string>, from: Option<string>,
                     data: Option<RawData>, lookup: Option<string>)
    requires IsPhoneId(Candidate(author, from))
    ensures ObtenerNumeroReal(false, None, author, from, data, lookup)
            == StripNonDigits(Candidate(author, from).value)
  {
  }

  /** A group message from "5491122334@c.us" resolves to "5491122334". */
  lemma ExampleDirectId(from: Option<string>, data: Option<RawData>, lookup: Option<string>)
    ensures ObtenerNumeroReal(false, None, Some("5491122334@c.us"), from, data, lookup) == "5491122334"
  {
    var id := "5491122334@c.us";
    ExampleIsPhoneId(id);
    ExampleDigits(id);
    DirectIdWins(Some(id), from, data, lookup);
  }

  lemma ExampleIsPhoneId(id: string)
    requires id == "5491122334@c.us"
    ensures IsPhoneId(Some(id)) && Truthy(Some(id))
  {
    assert id[10..15] == "@c.us";
    assert OccursAt(id, "@c.us", 10);
    IncludesAt(id, "@c.us");
  }

  lemma ExampleDigits(id: string)
    requires id == "5491122334@c.us"
    ensures StripNonDigits(id) == "5491122334"
  {
    ExampleSplit();
    StripNonDigitsAppend("5491122334", "@c.us");
    ExampleNumberDigits();
    ExampleSuffixDigits();
  }

  lemma ExampleSplit()
    ensures "5491122334" + "@c.us" == "5491122334@c.us"
  {
  }

  lemma ExampleNumberDigits()
    ensures StripNonDigits("5491122334") == "5491122334"
  {
    StripNonDigitsOfDigits("5491122334");
  }

  lemma ExampleSuffixDigits()
    ensures StripNonDigits("@c.us") == []
  {
    StripNonDigitsNoDigits("@c.us");
  }
}
