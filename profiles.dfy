/** A user's stored profile and the handoff text built from it when a
    session is created (`create_session_with_profile`,
    router_profiles_enhanced.py lines 180-210). */
module Profiles {
  import opened Wrappers
  import opened Text

  /** One column of a profile row: missing from the row, present but NULL,
      or present with a value. The distinction matters: `row.get(k, d)`
      returns `d` only for a missing column. */
  datatype Field<T> = Absent | Null | Value(v: T)

  /** An address column holds either a JSON object or a plain string. Of an
      object only the "street" and "city" keys are read, each missing, null
      or a string; `otherKeys` records whether the object has any other
      key, which makes it non-empty (truthy) without showing in the text. */
  datatype Address = Structured(street: Field<string>, city: Field<string>, otherKeys: bool) | Plain(text: string)

  /** A row of the profiles table. */
  datatype Profile = Profile(
    id: string,
    fullName: Field<string>,
    phone: Field<string>,
    email: Field<string>,
    address: Field<Address>)

  /** Python truthiness of a text column: present and non-empty. */
  predicate TextTruthy(f: Field<string>) {
    f.Value? && f.v != ""
  }

  /** Python truthiness of an address column: a non-empty object or a
      non-empty string. */
  predicate AddressTruthy(f: Field<Address>) {
    f.Value? &&
    match f.v
    case Structured(street, city, otherKeys) => !street.Absent? || !city.Absent? || otherKeys
    case Plain(text) => text != ""
  }

  /** `address.get(k, '')` in an f-string: the empty string for a missing
      key, "None" for a null value, the string itself otherwise. */
  function KeyText(f: Field<string>): string {
    match f
    case Absent => ""
    case Null => "None"
    case Value(v) => v
  }

  /** The address as the handoff renders it: "street, city" for an object,
      the string itself otherwise. */
  function AddressText(a: Address): string {
    match a
    case Structured(street, city, _) => KeyText(street) + ", " + KeyText(city)
    case Plain(text) => text
  }

  const NameLead := "Customer name: "
  const PhoneLead := "Phone: "
  const AddressLead := "Address: "
  const SentenceEnd := ". "

  function NameSentence(name: string): string { NameLead + name + SentenceEnd }
  function PhoneSentence(phone: string): string { PhoneLead + phone + SentenceEnd }
  function AddressSentence(a: Address): string { AddressLead + AddressText(a) + SentenceEnd }

  /** The profile context: the name, phone and address sentences, in that
      order, each present only when its column is truthy. */
  function ProfileContext(p: Profile): (r: string)
    ensures r == "" <==> !TextTruthy(p.fullName) && !TextTruthy(p.phone) && !AddressTruthy(p.address)
  {
    NamePart(p) + PhonePart(p) + AddressPart(p)
  }

  /** The closing line of every handoff: the user's first message, quoted
      verbatim. */
  function QuotedRequest(initial: string): string {
    QuotedLead + ("'" + initial + "'") + QuotedTail
  }

  const QuotedLead := "The user said: "
  const QuotedTail := " - please help them with their request."

  /** The opening of every handoff. */
  function Connecting(description: string): string {
    ConnectingLead + description + SentenceEnd
  }

  const ConnectingLead := "I'm connecting you with "

  /** The handoff message that seeds a new session: with a profile, the
      profile context on its own line between the opening and the quoted
      request; without one, the opening followed directly by the request. */
  function HandoffMessage(description: string, profile: Option<Profile>, initial: string): (r: string)
    ensures StartsWith(r, Connecting(description))
    ensures EndsWith(r, QuotedRequest(initial))
    ensures profile.None? ==> r == Connecting(description) + QuotedRequest(initial)
    ensures profile.Some? ==> r == Connecting(description) + "\n" + ProfileContext(profile.value) + "\n" + QuotedRequest(initial)
  {
    match profile
    case Some(p) => Connecting(description) + "\n" + ProfileContext(p) + "\n" + QuotedRequest(initial)
    case None => Connecting(description) + QuotedRequest(initial)
  }

  /** The sentence a column contributes: its sentence when truthy, nothing
      otherwise. */
  function NamePart(p: Profile): string {
    if TextTruthy(p.fullName) then NameSentence(p.fullName.v) else ""
  }

  function PhonePart(p: Profile): string {
    if TextTruthy(p.phone) then PhoneSentence(p.phone.v) else ""
  }

  function AddressPart(p: Profile): string {
    if AddressTruthy(p.address) then AddressSentence(p.address.v) else ""
  }

  /** The profile context holds exactly the truthy columns' sentences: its
      length is the sum of their lengths, the first truthy sentence opens
      it, the last closes it, and the phone sentence comes right after the
      name sentence when both are there. */
  lemma {:induction false} ProfileContextSentences(p: Profile)
    ensures |ProfileContext(p)| ==
      (if TextTruthy(p.fullName) then |NameSentence(p.fullName.v)| else 0)
      + (if TextTruthy(p.phone) then |PhoneSentence(p.phone.v)| else 0)
      + (if AddressTruthy(p.address) then |AddressSentence(p.address.v)| else 0)
    ensures TextTruthy(p.fullName) ==> StartsWith(ProfileContext(p), NameSentence(p.fullName.v))
    ensures !TextTruthy(p.fullName) && TextTruthy(p.phone) ==>
      StartsWith(ProfileContext(p), PhoneSentence(p.phone.v))
    ensures !TextTruthy(p.fullName) && !TextTruthy(p.phone) && AddressTruthy(p.address) ==>
      StartsWith(ProfileContext(p), AddressSentence(p.address.v))
    ensures TextTruthy(p.phone) ==>
      exists i :: OccursAt(ProfileContext(p), PhoneSentence(p.phone.v), i)
        && (TextTruthy(p.fullName) ==> i == |NameSentence(p.fullName.v)|)
    ensures AddressTruthy(p.address) ==>
      EndsWith(ProfileContext(p), AddressSentence(p.address.v))
    ensures !AddressTruthy(p.address) && TextTruthy(p.phone) ==>
      EndsWith(ProfileContext(p), PhoneSentence(p.phone.v))
    ensures !AddressTruthy(p.address) && !TextTruthy(p.phone) && TextTruthy(p.fullName) ==>
      EndsWith(ProfileContext(p), NameSentence(p.fullName.v))
  {
    var n, ph, ad := NamePart(p), PhonePart(p), AddressPart(p);
    var r := ProfileContext(p);
    assert r == n + ph + ad;
    assert r[..|n|] == n;
    assert r[|n|..|n| + |ph|] == ph;
    assert r[|r| - |ad|..] == ad;
    if TextTruthy(p.phone) {
      assert OccursAt(r, ph, |n|);
    }
    if n == "" {
      assert r == ph + ad;
      assert r[..|ph|] == ph;
      if ph == "" {
        assert r == ad;
      }
    }
    if ad == "" {
      assert r == n + ph;
      assert r[|r| - |ph|..] == ph;
      if ph == "" {
        assert r == n;
      }
    }
  }

  /** Every handoff quotes the user's first message verbatim, between
      single quotes, with or without a profile. */
  lemma HandoffQuotesMessage(description: string, profile: Option<Profile>, initial: string)
    ensures Contains(HandoffMessage(description, profile, initial), "'" + initial + "'")
  {
    var h, qr := HandoffMessage(description, profile, initial), QuotedRequest(initial);
    ContainsPart(QuotedLead, "'" + initial + "'", QuotedTail);
    var head := h[..|h| - |qr|];
    assert h == head + qr + "";
    ContainsWithin(head, qr, "", "'" + initial + "'");
  }

  /** A name sentence, whatever follows it, mentions the name. */
  lemma NameMentioned(name: string, rest: string)
    ensures Contains(NameSentence(name) + rest, name)
  {
    ContainsPart(NameLead, name, SentenceEnd + rest);
    assert NameSentence(name) + rest == NameLead + name + (SentenceEnd + rest);
  }

  /** A phone sentence, wherever it stands, mentions the number. */
  lemma PhoneMentioned(before: string, phone: string, after: string)
    ensures Contains(before + PhoneSentence(phone) + after, phone)
  {
    ContainsPart(PhoneLead, phone, SentenceEnd);
    ContainsWithin(before, PhoneSentence(phone), after, phone);
  }

  /** The name and phone sentences of a truthy name and phone carry the
      values themselves. */
  lemma ProfileContextMentions(p: Profile)
    requires TextTruthy(p.fullName) && TextTruthy(p.phone)
    ensures Contains(ProfileContext(p), p.fullName.v)
    ensures Contains(ProfileContext(p), p.phone.v)
  {
    var ad := if AddressTruthy(p.address) then AddressSentence(p.address.v) else "";
    var ns, ps := NameSentence(p.fullName.v), PhoneSentence(p.phone.v);
    assert ProfileContext(p) == ns + ps + ad;
    assert ns + ps + ad == ns + (ps + ad);
    NameMentioned(p.fullName.v, ps + ad);
    PhoneMentioned(ns, p.phone.v, ad);
  }

  /** The handoff for a profile with a truthy name and phone mentions both:
      the personalisation the profile is fetched for. */
  lemma HandoffMentionsProfile(description: string, p: Profile, initial: string)
    requires TextTruthy(p.fullName) && TextTruthy(p.phone)
    ensures Contains(HandoffMessage(description, Some(p), initial), p.fullName.v)
    ensures Contains(HandoffMessage(description, Some(p), initial), p.phone.v)
  {
    var pc := ProfileContext(p);
    ProfileContextMentions(p);
    var head, tail := Connecting(description) + "\n", "\n" + QuotedRequest(initial);
    assert HandoffMessage(description, Some(p), initial) == head + pc + tail;
    ContainsWithin(head, pc, tail, p.fullName.v);
    ContainsWithin(head, pc, tail, p.phone.v);
  }

  /** A truthy address's sentence occurs in the profile context. */
  lemma AddressInContext(p: Profile)
    requires AddressTruthy(p.address)
    ensures Contains(ProfileContext(p), AddressSentence(p.address.v))
  {
    var pc, ad := ProfileContext(p), AddressSentence(p.address.v);
    ProfileContextSentences(p);
    var before := pc[..|pc| - |ad|];
    assert pc == before + ad + "";
    ContainsSelf(ad);
    ContainsWithin(before, ad, "", ad);
  }

  /** The handoff for a profile with a truthy address carries the address
      sentence: for an object, its street and city (a missing key empty, a
      null one "None") joined by a comma; for a string, the string. */
  lemma HandoffMentionsAddress(description: string, p: Profile, initial: string)
    requires AddressTruthy(p.address)
    ensures p.address.v.Structured? ==>
      Contains(HandoffMessage(description, Some(p), initial),
        AddressLead + KeyText(p.address.v.street) + ", " + KeyText(p.address.v.city) + SentenceEnd)
    ensures p.address.v.Plain? ==>
      Contains(HandoffMessage(description, Some(p), initial), AddressLead + p.address.v.text + SentenceEnd)
  {
    var pc, ad := ProfileContext(p), AddressSentence(p.address.v);
    AddressInContext(p);
    var head, tail := Connecting(description) + "\n", "\n" + QuotedRequest(initial);
    assert HandoffMessage(description, Some(p), initial) == head + pc + tail;
    ContainsWithin(head, pc, tail, ad);
    AddressSentenceParts(p.address.v);
  }

  /** The address sentence of an object spells out its street and city. */
  lemma AddressSentenceParts(a: Address)
    ensures a.Structured? ==> AddressSentence(a) == AddressLead + KeyText(a.street) + ", " + KeyText(a.city) + SentenceEnd
  {
    if a.Structured? {
      assert AddressText(a) == KeyText(a.street) + ", " + KeyText(a.city);
    }
  }
}
