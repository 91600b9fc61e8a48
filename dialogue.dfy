/**
 * The chat intake's dialogue (chat.js): the interceptors that answer greetings, passport
 * questions and status checks at any point, the first-match classification of an opening
 * message, and the address / anonymity / details steps that end in filing a record with the
 * complaint store and resetting the conversation.
 */
module Dialogue {
  import opened Wrappers
  import opened Text
  import opened Reference
  import opened Complaints

  // ---------------------------------------------------------------- vocabulary

  datatype ComplaintType = HWG | JNK | CON | NSE | SUB | DMP | SGN

  datatype PermitType = FNC | GAR | SPE | HOM | TRE

  function ComplaintCode(c: ComplaintType): (code: string)
    ensures |code| == 3 && AllUpper(code)
  {
    match c
    case HWG => "HWG"
    case JNK => "JNK"
    case CON => "CON"
    case NSE => "NSE"
    case SUB => "SUB"
    case DMP => "DMP"
    case SGN => "SGN"
  }

  function PermitCode(p: PermitType): (code: string)
    ensures |code| == 3 && AllUpper(code)
  {
    match p
    case FNC => "FNC"
    case GAR => "GAR"
    case SPE => "SPE"
    case HOM => "HOM"
    case TRE => "TRE"
  }

  /** The `complaintTypes` table read by code, as the complaint list does for its category line. */
  function ComplaintTypeOf(code: string): (c: Option<ComplaintType>)
    ensures c.Some? ==> ComplaintCode(c.value) == code
  {
    if code == "HWG" then Some(HWG)
    else if code == "JNK" then Some(JNK)
    else if code == "CON" then Some(CON)
    else if code == "NSE" then Some(NSE)
    else if code == "SUB" then Some(SUB)
    else if code == "DMP" then Some(DMP)
    else if code == "SGN" then Some(SGN)
    else None
  }

  /** The `permitTypes` table read by code. */
  function PermitTypeOf(code: string): (p: Option<PermitType>)
    ensures p.Some? ==> PermitCode(p.value) == code
  {
    if code == "FNC" then Some(FNC)
    else if code == "GAR" then Some(GAR)
    else if code == "SPE" then Some(SPE)
    else if code == "HOM" then Some(HOM)
    else if code == "TRE" then Some(TRE)
    else None
  }

  /**
   * Every code is found in its own table and not in the other, so the list's lookup
   * `complaintTypes[type] || permitTypes[type]` names the right category.
   */
  lemma ComplaintCodeRoundTrip(c: ComplaintType)
    ensures ComplaintTypeOf(ComplaintCode(c)) == Some(c) && PermitTypeOf(ComplaintCode(c)) == None
  {
    match c
    case HWG => case JNK => case CON => case NSE => case SUB => case DMP => case SGN =>
  }

  lemma PermitCodeRoundTrip(p: PermitType)
    ensures PermitTypeOf(PermitCode(p)) == Some(p) && ComplaintTypeOf(PermitCode(p)) == None
  {
    match p
    case FNC => case GAR => case SPE => case HOM => case TRE =>
  }

  /** No two types share a code. */
  lemma CodesDistinct(c: ComplaintType, d: ComplaintType, p: PermitType, q: PermitType)
    ensures ComplaintCode(c) == ComplaintCode(d) <==> c == d
    ensures PermitCode(p) == PermitCode(q) <==> p == q
    ensures ComplaintCode(c) != PermitCode(p)
  {
    ComplaintCodeRoundTrip(c);
    ComplaintCodeRoundTrip(d);
    PermitCodeRoundTrip(p);
    PermitCodeRoundTrip(q);
  }

  /** `currentStep`: 0, 1, 1.5 and 2 in the script. */
  datatype Step = AwaitingInquiry | AwaitingAddress | AwaitingAnonymity | AwaitingDetails

  // ---------------------------------------------------------------- classification

  datatype Classification = ComplaintOf(complaint: ComplaintType) | PermitOf(permit: PermitType) | GeneralInquiry

  /** The keyword condition of each complaint rule, on lower-case text. */
  predicate RuleHolds(c: ComplaintType, lower: string)
  {
    match c
    case HWG => Contains(lower, "weed") || Contains(lower, "grass") || Contains(lower, "lawn")
    case JNK => Contains(lower, "junk") || Contains(lower, "abandoned") || Contains(lower, "vehicle")
    case CON => Contains(lower, "construction") && !Contains(lower, "permit")
    case NSE => Contains(lower, "noise")
    case SUB => Contains(lower, "housing") || Contains(lower, "apartment") || Contains(lower, "heat")
                || Contains(lower, "living condition")
    case DMP => Contains(lower, "dump") || (Contains(lower, "trash") && !Contains(lower, "can"))
    case SGN => Contains(lower, "sign") || (Contains(lower, "fence") && !Contains(lower, "permit"))
  }

  /** The complaint rules in the order the classifier tries them. */
  const RuleOrder: seq<ComplaintType> := [HWG, JNK, CON, NSE, SUB, DMP, SGN]

  /** The first rule of `rules` that holds, `|rules|` when none does. */
  function FirstRule(rules: seq<ComplaintType>, lower: string): (i: nat)
    ensures i <= |rules|
    ensures i < |rules| ==> RuleHolds(rules[i], lower)
    ensures forall k :: 0 <= k < i ==> !RuleHolds(rules[k], lower)
  {
    if rules == [] then 0 else if RuleHolds(rules[0], lower) then 0 else 1 + FirstRule(rules[1..], lower)
  }

  /** The permit sub-classification of `classifyInitialInquiry`, on lower-case text. */
  function PermitSubtype(lower: string): (p: PermitType)
    ensures p == FNC <==> Contains(lower, "fence")
    ensures p == GAR <==> !Contains(lower, "fence") && Contains(lower, "garage sale")
    ensures p == SPE <==> !Contains(lower, "fence") && !Contains(lower, "garage sale")
                          && (Contains(lower, "event") || Contains(lower, "party"))
    ensures p == TRE <==> !Contains(lower, "fence") && !Contains(lower, "garage sale")
                          && !Contains(lower, "event") && !Contains(lower, "party") && Contains(lower, "tree")
  {
    if Contains(lower, "fence") then FNC
    else if Contains(lower, "garage sale") then GAR
    else if Contains(lower, "event") || Contains(lower, "party") then SPE
    else if Contains(lower, "tree") then TRE
    else HOM
  }

  /**
   * `classifyInitialInquiry`'s decision: the first complaint rule that holds on the lower-cased
   * message, else a permit request when it mentions "permit", else a general inquiry.
   */
  function Classify(message: string): (r: Classification)
    ensures r.ComplaintOf? ==> RuleHolds(r.complaint, ToLower(message))
    ensures r.PermitOf? ==> Contains(ToLower(message), "permit") && r.permit == PermitSubtype(ToLower(message))
    ensures r == GeneralInquiry ==> !Contains(ToLower(message), "permit")
  {
    var lower := ToLower(message);
    if Contains(lower, "weed") || Contains(lower, "grass") || Contains(lower, "lawn") then ComplaintOf(HWG)
    else if Contains(lower, "junk") || Contains(lower, "abandoned") || Contains(lower, "vehicle") then ComplaintOf(JNK)
    else if Contains(lower, "construction") && !Contains(lower, "permit") then ComplaintOf(CON)
    else if Contains(lower, "noise") then ComplaintOf(NSE)
    else if Contains(lower, "housing") || Contains(lower, "apartment") || Contains(lower, "heat")
            || Contains(lower, "living condition") then ComplaintOf(SUB)
    else if Contains(lower, "dump") || (Contains(lower, "trash") && !Contains(lower, "can")) then ComplaintOf(DMP)
    else if Contains(lower, "sign") || (Contains(lower, "fence") && !Contains(lower, "permit")) then ComplaintOf(SGN)
    else if Contains(lower, "permit") then PermitOf(PermitSubtype(lower))
    else GeneralInquiry
  }

  /** The rule list tried in order, written out. */
  lemma RuleOrderUnfolded(lower: string)
    ensures FirstRule(RuleOrder, lower) ==
      if RuleHolds(HWG, lower) then 0 else if RuleHolds(JNK, lower) then 1
      else if RuleHolds(CON, lower) then 2 else if RuleHolds(NSE, lower) then 3
      else if RuleHolds(SUB, lower) then 4 else if RuleHolds(DMP, lower) then 5
      else if RuleHolds(SGN, lower) then 6 else 7
  {
    var r := RuleOrder;
    assert FirstRule(r[7..], lower) == 0;
    assert r[6..][0] == SGN && r[6..][1..] == r[7..];
    assert FirstRule(r[6..], lower) == if RuleHolds(SGN, lower) then 0 else 1 + FirstRule(r[7..], lower);
    assert r[5..][0] == DMP && r[5..][1..] == r[6..];
    assert FirstRule(r[5..], lower) == if RuleHolds(DMP, lower) then 0 else 1 + FirstRule(r[6..], lower);
    assert r[4..][0] == SUB && r[4..][1..] == r[5..];
    assert FirstRule(r[4..], lower) == if RuleHolds(SUB, lower) then 0 else 1 + FirstRule(r[5..], lower);
    assert r[3..][0] == NSE && r[3..][1..] == r[4..];
    assert FirstRule(r[3..], lower) == if RuleHolds(NSE, lower) then 0 else 1 + FirstRule(r[4..], lower);
    assert r[2..][0] == CON && r[2..][1..] == r[3..];
    assert FirstRule(r[2..], lower) == if RuleHolds(CON, lower) then 0 else 1 + FirstRule(r[3..], lower);
    assert r[1..][0] == JNK && r[1..][1..] == r[2..];
    assert FirstRule(r[1..], lower) == if RuleHolds(JNK, lower) then 0 else 1 + FirstRule(r[2..], lower);
    assert r[0..][0] == HWG && r[0..][1..] == r[1..];
    assert FirstRule(r[0..], lower) == if RuleHolds(HWG, lower) then 0 else 1 + FirstRule(r[1..], lower);
    assert r[0..] == r;
  }

  /**
   * The classifier is the first match of its rule list: the first complaint rule that holds
   * on the lower-cased message wins; when none holds, a message that mentions "permit" is a
   * permit request of the sub-type its keywords select, and any other is a general inquiry.
   */
  lemma ClassifyIsFirstMatch(message: string)
    ensures var lower := ToLower(message);
            var i := FirstRule(RuleOrder, lower);
            && (i < |RuleOrder| ==> Classify(message) == ComplaintOf(RuleOrder[i]))
            && (i == |RuleOrder| && Contains(lower, "permit") ==> Classify(message) == PermitOf(PermitSubtype(lower)))
            && (i == |RuleOrder| && !Contains(lower, "permit") ==> Classify(message) == GeneralInquiry)
  {
    RuleOrderUnfolded(ToLower(message));
  }

  /** `determinePermitType`: the script's other, unused, permit classifier. */
  function DeterminePermitType(description: string): (p: PermitType)
    ensures var d := ToLower(description);
            && (p == FNC <==> Contains(d, "fence"))
            && (p == GAR <==> !Contains(d, "fence") && Contains(d, "garage sale"))
            && (p == SPE <==> !Contains(d, "fence") && !Contains(d, "garage sale") && Contains(d, "event"))
            && (p == TRE <==> !Contains(d, "fence") && !Contains(d, "garage sale") && !Contains(d, "event")
                              && !Contains(d, "home") && !Contains(d, "remodel") && Contains(d, "tree"))
  {
    var d := ToLower(description);
    if Contains(d, "fence") then FNC
    else if Contains(d, "garage sale") then GAR
    else if Contains(d, "event") then SPE
    else if Contains(d, "home") || Contains(d, "remodel") then HOM
    else if Contains(d, "tree") then TRE
    else HOM
  }

  /**
   * The two permit classifiers disagree exactly on text that mentions none of fence, garage
   * sale and event, and mentions a party, or a tree together with home or remodel work.
   */
  lemma PermitClassifiersDiffer(description: string)
    ensures var d := ToLower(description);
            PermitSubtype(d) != DeterminePermitType(description) <==>
              && !Contains(d, "fence") && !Contains(d, "garage sale") && !Contains(d, "event")
              && (Contains(d, "party") || (Contains(d, "tree") && (Contains(d, "home") || Contains(d, "remodel"))))
  {
  }

  // ---------------------------------------------------------------- interceptors

  predicate IsGreeting(lower: string)
  {
    lower == "hi" || lower == "hello" || lower == "hey"
  }

  predicate IsStatusQuery(lower: string)
  {
    Contains(lower, "status") && (Contains(lower, "cc-") || Contains(lower, "pmt-"))
  }

  /** Messages answered before the step is looked at. */
  predicate Intercepted(lower: string)
  {
    IsGreeting(lower) || Contains(lower, "passport") || IsStatusQuery(lower)
  }

  /** The subject `handlePassportQuery` answers, chosen by the first keyword group present. */
  datatype PassportTopic = Apply | Documents | Kinds | Fees | Times | Minors | Tatkal | Overview

  function PassportTopicOf(query: string): (t: PassportTopic)
    ensures t == Apply <==> Contains(query, "apply") || Contains(query, "how to get")
    ensures t == Overview ==>
              && !Contains(query, "apply") && !Contains(query, "how to get")
              && !Contains(query, "document") && !Contains(query, "required")
              && !Contains(query, "type") && !Contains(query, "kind")
              && !Contains(query, "fee") && !Contains(query, "cost") && !Contains(query, "charge")
              && !Contains(query, "time") && !Contains(query, "duration") && !Contains(query, "how long")
              && !Contains(query, "minor") && !Contains(query, "child")
              && !Contains(query, "tatkal") && !Contains(query, "urgent") && !Contains(query, "emergency")
  {
    if Contains(query, "apply") || Contains(query, "how to get") then Apply
    else if Contains(query, "document") || Contains(query, "required") then Documents
    else if Contains(query, "type") || Contains(query, "kind") then Kinds
    else if Contains(query, "fee") || Contains(query, "cost") || Contains(query, "charge") then Fees
    else if Contains(query, "time") || Contains(query, "duration") || Contains(query, "how long") then Times
    else if Contains(query, "minor") || Contains(query, "child") then Minors
    else if Contains(query, "tatkal") || Contains(query, "urgent") || Contains(query, "emergency") then Tatkal
    else Overview
  }

  // ---------------------------------------------------------------- the conversation

  /**
   * `chatState`. `permitType` and `contactInfo` are absent from the initial record and appear
   * once set; `description` is `details.description`, absent while `details` is `{}`.
   */
  datatype ChatState = ChatState(
    step: Step,
    complaintType: Option<ComplaintType>,
    permitType: Option<PermitType>,
    address: Option<string>,
    description: Option<string>,
    isAnonymous: bool,
    contactInfo: Option<string>)

  const Initial: ChatState :=
    ChatState(AwaitingInquiry, None, None, None, None, true, None)

  /** `resetChat`: only the step, the complaint type, the address and the details are cleared. */
  function Reset(s: ChatState): (r: ChatState)
    ensures r.step == AwaitingInquiry && r.complaintType.None? && r.address.None? && r.description.None?
    ensures r.permitType == s.permitType && r.isAnonymous == s.isAnonymous && r.contactInfo == s.contactInfo
  {
    s.(step := AwaitingInquiry, complaintType := None, address := None, description := None)
  }

  /**
   * What holds of every state the conversation reaches: a type is known once past the first
   * step, the anonymity question is only asked about complaints, an address is known from
   * then on, and a description never outlives the turn that files it.
   */
  predicate Consistent(s: ChatState)
  {
    && s.description.None?
    && (s.step == AwaitingInquiry ==> s.complaintType.None? && s.address.None?)
    && (s.step == AwaitingAddress ==> (s.complaintType.Some? || s.permitType.Some?) && s.address.None?)
    && (s.step == AwaitingAnonymity ==> s.complaintType.Some? && s.address.Some?)
    && (s.step == AwaitingDetails ==> (s.complaintType.Some? || s.permitType.Some?) && s.address.Some?)
  }

  /** The bot's messages, by what they say rather than their wording. */
  datatype Reply =
    | Greeting
    | PassportInfo(topic: PassportTopic)
    | StatusInfo(status: StatusReply)
    | GeneralHelp
    | AskAddress(kind: Classification)
    | AskAnonymity
    | AskContact
    | AskPermitDetails(permit: Option<PermitType>)
    | AskHousingDetails
    | AskIssueDetails
    | Confirmation(refNumber: string)

  /** The arguments of the `addComplaint` call that files a report. */
  datatype Filing = Filing(typeCode: string, refNumber: string, details: ReportDetails)

  /** One turn: the next state, the reply, the filing if any, and the next `dailyCounter`. */
  datatype Turn = Turn(next: ChatState, reply: Reply, filing: Option<Filing>, counter: nat)

  /** `complaintType || permitType` as the text that reaches the record and the reference. */
  function TypeCode(s: ChatState): (code: string)
    ensures s.complaintType.Some? ==> ComplaintTypeOf(code) == s.complaintType
    ensures s.complaintType.None? && s.permitType.Some? ==> PermitTypeOf(code) == s.permitType
    ensures |code| == 3 && AllUpper(code) <==> s.complaintType.Some? || s.permitType.Some?
  {
    if s.complaintType.Some? then ComplaintCodeRoundTrip(s.complaintType.value); ComplaintCode(s.complaintType.value)
    else if s.permitType.Some? then PermitCodeRoundTrip(s.permitType.value); PermitCode(s.permitType.value)
    else assert "undefined"[0] !in "ABCDEFGHIJKLMNOPQRSTUVWXYZ"; "undefined"
  }

  /** `classifyInitialInquiry`'s effect on the state. */
  function ClassifyTurn(s: ChatState, message: string, counter: nat): (t: Turn)
    ensures t.filing.None? && t.counter == counter
    ensures t.next.step == (if Classify(message) == GeneralInquiry then AwaitingInquiry else AwaitingAddress)
    ensures t.next.address == s.address && t.next.description == s.description
    ensures t.next.isAnonymous == s.isAnonymous && t.next.contactInfo == s.contactInfo
    ensures Classify(message).ComplaintOf? ==>
              t.next.complaintType == Some(Classify(message).complaint) && t.next.permitType == s.permitType
    ensures Classify(message).PermitOf? ==>
              t.next.complaintType.None? && t.next.permitType == Some(Classify(message).permit)
    ensures Classify(message) == GeneralInquiry ==>
              t.next.complaintType == s.complaintType && t.next.permitType == s.permitType
    ensures t.reply == if Classify(message) == GeneralInquiry then GeneralHelp else AskAddress(Classify(message))
  {
    match Classify(message)
    case ComplaintOf(c) => Turn(s.(complaintType := Some(c), step := AwaitingAddress), AskAddress(ComplaintOf(c)), None, counter)
    case PermitOf(p) =>
      Turn(s.(complaintType := None, permitType := Some(p), step := AwaitingAddress), AskAddress(PermitOf(p)), None, counter)
    case GeneralInquiry => Turn(s.(step := AwaitingInquiry), GeneralHelp, None, counter)
  }

  /** `finalizeReport`: one reference number, one filing, then `resetChat`. */
  function FinalizeTurn(s: ChatState, today: Date, counter: nat): (t: Turn)
    requires ValidDate(today)
    ensures t.counter == counter + 1 && t.next == Reset(s) && t.filing.Some?
    ensures t.reply == Confirmation(t.filing.value.refNumber)
  {
    var isPermit := s.complaintType.None?;
    var ref := ReferenceNumber(isPermit, TypeCode(s), DateStamp(today), counter);
    var details := ReportDetails(s.address, s.description, s.isAnonymous, s.contactInfo);
    Turn(Reset(s), Confirmation(ref), Some(Filing(TypeCode(s), ref, details)), counter + 1)
  }

  /**
   * `processUserInput` on the trimmed message, at the state `s` with `dailyCounter` equal
   * to `counter` and the clock showing `today`.
   */
  function Respond(s: ChatState, message: string, today: Date, counter: nat): (t: Turn)
    requires ValidDate(today)
    ensures t.counter == if t.filing.Some? then counter + 1 else counter
    ensures t.filing.Some? ==> t.reply == Confirmation(t.filing.value.refNumber) && t.next.step == AwaitingInquiry
  {
    var lower := ToLower(message);
    if IsGreeting(lower) then Turn(s, Greeting, None, counter)
    else if Contains(lower, "passport") then Turn(s, PassportInfo(PassportTopicOf(lower)), None, counter)
    else if IsStatusQuery(lower) then Turn(s, StatusInfo(StatusCheck(message)), None, counter)
    else
      match s.step
      case AwaitingInquiry => ClassifyTurn(s, lower, counter)
      case AwaitingAddress =>
        if s.complaintType.Some? then
          var reply := if s.complaintType.value != SUB then AskAnonymity else AskContact;
          Turn(s.(address := Some(message), step := AwaitingAnonymity), reply, None, counter)
        else
          Turn(s.(address := Some(message), step := AwaitingDetails), AskPermitDetails(s.permitType), None, counter)
      case AwaitingAnonymity =>
        if s.complaintType == Some(SUB) then
          Turn(s.(isAnonymous := false, contactInfo := Some(message), step := AwaitingDetails), AskHousingDetails, None, counter)
        else
          var anonymous := Contains(lower, "yes") || Contains(lower, "anonymous");
          Turn(s.(isAnonymous := anonymous, step := AwaitingDetails), AskIssueDetails, None, counter)
      case AwaitingDetails => FinalizeTurn(s.(description := Some(message)), today, counter)
  }

  // ---------------------------------------------------------------- properties of a turn

  /** Greetings, passport questions and status checks leave the conversation where it was. */
  lemma InterceptorsKeepState(s: ChatState, message: string, today: Date, counter: nat)
    requires ValidDate(today) && Intercepted(ToLower(message))
    ensures var t := Respond(s, message, today, counter);
            t.next == s && t.filing.None? && t.counter == counter
  {
  }

  /** A report is filed exactly on a non-intercepted message at the details step. */
  lemma FilingOnlyAtDetails(s: ChatState, message: string, today: Date, counter: nat)
    requires ValidDate(today)
    ensures var t := Respond(s, message, today, counter);
            t.filing.Some? <==> s.step == AwaitingDetails && !Intercepted(ToLower(message))
  {
  }

  /**
   * The address step: the message becomes the address; a complaint goes on to the anonymity
   * question (the contact question for housing), a permit request straight to its details.
   */
  lemma AddressTurn(s: ChatState, message: string, today: Date, counter: nat)
    requires ValidDate(today) && s.step == AwaitingAddress && !Intercepted(ToLower(message))
    ensures var t := Respond(s, message, today, counter);
            && t.next == s.(address := Some(message),
                            step := if s.complaintType.Some? then AwaitingAnonymity else AwaitingDetails)
            && t.reply == (if s.complaintType.None? then AskPermitDetails(s.permitType)
                           else if s.complaintType == Some(SUB) then AskContact else AskAnonymity)
            && t.filing.None? && t.counter == counter
  {
  }

  /** The anonymity step outside housing: anonymous exactly when the answer says "yes" or "anonymous". */
  lemma AnonymityTurn(s: ChatState, message: string, today: Date, counter: nat)
    requires ValidDate(today) && s.step == AwaitingAnonymity && s.complaintType != Some(SUB)
    requires !Intercepted(ToLower(message))
    ensures var t := Respond(s, message, today, counter);
            var lower := ToLower(message);
            && t.next == s.(isAnonymous := Contains(lower, "yes") || Contains(lower, "anonymous"), step := AwaitingDetails)
            && t.reply == AskIssueDetails && t.filing.None? && t.counter == counter
  {
  }

  /** Every reached state is consistent: the invariant is kept by every turn. */
  lemma RespondConsistent(s: ChatState, message: string, today: Date, counter: nat)
    requires ValidDate(today) && Consistent(s)
    ensures Consistent(Respond(s, message, today, counter).next)
  {
  }

  /**
   * What a filing from a consistent state carries: a known type code, the collected address
   * and description, and the reference number for that code, dated today, with the counter
   * as it stood; the complaint type takes precedence over a leftover permit type.
   */
  lemma FilingContents(s: ChatState, message: string, today: Date, counter: nat)
    requires ValidDate(today) && Consistent(s)
    requires s.step == AwaitingDetails && !Intercepted(ToLower(message))
    ensures var t := Respond(s, message, today, counter);
            var f := t.filing.value;
            && f.typeCode == (if s.complaintType.Some? then ComplaintCode(s.complaintType.value)
                              else PermitCode(s.permitType.value))
            && f.refNumber == ReferenceNumber(s.complaintType.None?, f.typeCode, DateStamp(today), counter)
            && f.details == ReportDetails(s.address, Some(message), s.isAnonymous, s.contactInfo)
            && f.details.address.Some?
  {
  }

  /** The record filed from a consistent state is a permit exactly when no complaint type is set. */
  lemma FiledRecordKind(s: ChatState, message: string, today: Date, counter: nat, now: string)
    requires ValidDate(today) && Consistent(s)
    requires s.step == AwaitingDetails && !Intercepted(ToLower(message))
    ensures var f := Respond(s, message, today, counter).filing.value;
            var c := NewComplaint(f.typeCode, f.refNumber, f.details, now);
            c.isPermit <==> s.complaintType.None?
  {
  }

  /**
   * Complaint and permit types are not exclusive: a permit request leaves its permit type
   * behind after filing, so a later complaint's state carries both.
   */
  lemma PermitTypeSurvives(s: ChatState, message: string, today: Date, counter: nat, next: string)
    requires ValidDate(today) && s.permitType.Some?
    requires s.step == AwaitingDetails && !Intercepted(ToLower(message))
    requires !Intercepted(ToLower(next)) && Classify(ToLower(next)).ComplaintOf?
    ensures var t := Respond(s, message, today, counter);
            var u := Respond(t.next, next, today, t.counter);
            u.next.complaintType.Some? && u.next.permitType == s.permitType
  {
  }

  /**
   * Contact details given for a housing report stay in the state, so a later complaint
   * answered "yes" to anonymity is filed anonymously with those contact details attached.
   */
  lemma ContactInfoOutlivesReport(s: ChatState, message: string, today: Date, counter: nat)
    requires ValidDate(today) && s.contactInfo.Some?
    requires s.step == AwaitingAnonymity && s.complaintType.Some? && s.complaintType != Some(SUB)
    requires !Intercepted(ToLower(message)) && Contains(ToLower(message), "yes")
    ensures var t := Respond(s, message, today, counter);
            t.next.isAnonymous && t.next.contactInfo == s.contactInfo
  {
  }

  /** A housing report always records the contact answer and is never anonymous. */
  lemma HousingNeedsContact(s: ChatState, message: string, today: Date, counter: nat)
    requires ValidDate(today) && s.step == AwaitingAnonymity && s.complaintType == Some(SUB)
    requires !Intercepted(ToLower(message))
    ensures var t := Respond(s, message, today, counter);
            !t.next.isAnonymous && t.next.contactInfo == Some(message) && t.next.step == AwaitingDetails
  {
  }

  /**
   * The whole complaint conversation from a fresh step: a classified opening, an address,
   * the anonymity answer and the description produce one filing with the address and
   * description given and the counter's current value in its reference, and end back at the
   * first step.
   */
  lemma ComplaintFlow(s: ChatState, m1: string, m2: string, m3: string, m4: string, today: Date, counter: nat)
    requires ValidDate(today) && s.step == AwaitingInquiry
    requires !Intercepted(ToLower(m1)) && !Intercepted(ToLower(m2))
    requires !Intercepted(ToLower(m3)) && !Intercepted(ToLower(m4))
    requires Classify(ToLower(m1)).ComplaintOf?
    ensures var c := Classify(ToLower(m1)).complaint;
            var t1 := Respond(s, m1, today, counter);
            var t2 := Respond(t1.next, m2, today, t1.counter);
            var t3 := Respond(t2.next, m3, today, t2.counter);
            var t4 := Respond(t3.next, m4, today, t3.counter);
            && t1.filing.None? && t2.filing.None? && t3.filing.None?
            && t4.filing == Some(Filing(ComplaintCode(c), ReferenceNumber(false, ComplaintCode(c), DateStamp(today), counter),
                                        ReportDetails(Some(m2), Some(m4), t3.next.isAnonymous, t3.next.contactInfo)))
            && t4.counter == counter + 1
            && t4.next.step == AwaitingInquiry
  {
  }

  /**
   * The record stored by a complaint conversation outside housing whose anonymity answer
   * says "yes": a complaint of the classified type, at the given address, with the given
   * description, anonymous, with a single history entry.
   */
  lemma AnonymousComplaintRecord(s: ChatState, m1: string, m2: string, m3: string, m4: string,
                                 today: Date, counter: nat, now: string)
    requires ValidDate(today) && s.step == AwaitingInquiry
    requires !Intercepted(ToLower(m1)) && !Intercepted(ToLower(m2))
    requires !Intercepted(ToLower(m3)) && !Intercepted(ToLower(m4))
    requires Classify(ToLower(m1)).ComplaintOf? && Classify(ToLower(m1)).complaint != SUB
    requires Contains(ToLower(m3), "yes")
    ensures var t1 := Respond(s, m1, today, counter);
            var t2 := Respond(t1.next, m2, today, t1.counter);
            var t3 := Respond(t2.next, m3, today, t2.counter);
            var f := Respond(t3.next, m4, today, t3.counter).filing.value;
            var c := NewComplaint(f.typeCode, f.refNumber, f.details, now);
            && c.typeCode == ComplaintCode(Classify(ToLower(m1)).complaint) && !c.isPermit
            && c.address == Some(m2) && c.description == Some(m4)
            && c.isAnonymous && |c.updates| == 1
  {
    ComplaintFlow(s, m1, m2, m3, m4, today, counter);
    var t1 := Respond(s, m1, today, counter);
    var t2 := Respond(t1.next, m2, today, t1.counter);
    AnonymityTurn(t2.next, m3, today, t2.counter);
  }

  /** A permit conversation skips the anonymity step: three messages, one filing. */
  lemma PermitFlow(s: ChatState, m1: string, m2: string, m3: string, today: Date, counter: nat)
    requires ValidDate(today) && s.step == AwaitingInquiry
    requires !Intercepted(ToLower(m1)) && !Intercepted(ToLower(m2)) && !Intercepted(ToLower(m3))
    requires Classify(ToLower(m1)).PermitOf?
    ensures var p := Classify(ToLower(m1)).permit;
            var t1 := Respond(s, m1, today, counter);
            var t2 := Respond(t1.next, m2, today, t1.counter);
            var t3 := Respond(t2.next, m3, today, t2.counter);
            && t1.filing.None? && t2.filing.None?
            && t3.filing == Some(Filing(PermitCode(p), ReferenceNumber(true, PermitCode(p), DateStamp(today), counter),
                                        ReportDetails(Some(m2), Some(m3), s.isAnonymous, s.contactInfo)))
            && t3.next.step == AwaitingInquiry && t3.next.permitType == Some(p)
  {
  }

  /** The store's list after a turn with the given filing, `now` being the clock reading. */
  function AfterFiling(before: seq<Complaint>, filing: Option<Filing>, now: string): seq<Complaint>
  {
    match filing
    case None => before
    case Some(f) => before + [NewComplaint(f.typeCode, f.refNumber, f.details, now)]
  }

  // ---------------------------------------------------------------- the session

  datatype Message = User(text: string) | Bot(reply: Reply)

  /**
   * The chat widget: the `chatState` fields, the page's `dailyCounter`, the transcript of the
   * chat body, and the complaint store reports are filed with.
   */
  class ChatSession {
    var step: Step
    var complaintType: Option<ComplaintType>
    var permitType: Option<PermitType>
    var address: Option<string>
    var description: Option<string>
    var isAnonymous: bool
    var contactInfo: Option<string>
    var dailyCounter: nat
    var transcript: seq<Message>
    const store: ComplaintStore

    function State(): ChatState
      reads this
    {
      ChatState(step, complaintType, permitType, address, description, isAnonymous, contactInfo)
    }

    constructor (store: ComplaintStore)
      ensures State() == Initial && dailyCounter == 1 && transcript == [] && this.store == store
      ensures Consistent(State())
    {
      step := AwaitingInquiry;
      complaintType := None;
      permitType := None;
      address := None;
      description := None;
      isAnonymous := true;
      contactInfo := None;
      dailyCounter := 1;
      transcript := [];
      this.store := store;
    }

    /** `generateReferenceNumber`: the reference for the counter's current value, then the counter moves on by one. */
    method GenerateReferenceNumber(typeCode: string, isPermit: bool, today: Date) returns (ref: string)
      requires ValidDate(today)
      modifies this
      ensures ref == ReferenceNumber(isPermit, typeCode, DateStamp(today), old(dailyCounter))
      ensures dailyCounter == old(dailyCounter) + 1
      ensures State() == old(State()) && transcript == old(transcript)
    {
      var date := DateStamp(today);
      var sequenceNum := SequenceField(dailyCounter);
      dailyCounter := dailyCounter + 1;
      ref := Prefix(isPermit) + "-" + typeCode + "-" + date + "-" + sequenceNum;
    }

    /** `resetChat`. */
    method ResetChat()
      modifies this
      ensures State() == Reset(old(State()))
      ensures dailyCounter == old(dailyCounter) && transcript == old(transcript)
    {
      step := AwaitingInquiry;
      complaintType := None;
      address := None;
      description := None;
    }

    /** `classifyInitialInquiry`. */
    method ClassifyInitialInquiry(message: string)
      modifies this
      ensures var t := ClassifyTurn(old(State()), message, old(dailyCounter));
              State() == t.next && transcript == old(transcript) + [Bot(t.reply)]
      ensures dailyCounter == old(dailyCounter)
    {
      var kind := Classify(message);
      match kind
      case ComplaintOf(c) =>
        complaintType := Some(c);
        transcript := transcript + [Bot(AskAddress(kind))];
        step := AwaitingAddress;
      case PermitOf(p) =>
        complaintType := None;
        permitType := Some(p);
        transcript := transcript + [Bot(AskAddress(kind))];
        step := AwaitingAddress;
      case GeneralInquiry =>
        step := AwaitingInquiry;
        transcript := transcript + [Bot(GeneralHelp)];
    }

    /** `finalizeReport`: issue a reference, file the report with the store, confirm, reset. */
    method FinalizeReport(today: Date, now: string)
      requires ValidDate(today)
      modifies this, store, store.storage
      ensures var t := FinalizeTurn(old(State()), today, old(dailyCounter));
              && State() == t.next && dailyCounter == t.counter
              && transcript == old(transcript) + [Bot(t.reply)]
              && store.complaints == AfterFiling(old(store.complaints), t.filing, now)
      ensures store.storage.saved == (if old(store.storage.failing) then old(store.storage.saved) else Some(store.complaints))
      ensures !store.errorShown && store.listing == Render(store.Shown())
      ensures store.storage.failing == old(store.storage.failing) && store.initialized == old(store.initialized)
      ensures store.typeFilter == old(store.typeFilter) && store.statusFilter == old(store.statusFilter)
    {
      var typeCode := TypeCode(State());
      var refNumber;
      if complaintType.Some? {
        refNumber := GenerateReferenceNumber(typeCode, false, today);
      } else {
        refNumber := GenerateReferenceNumber(typeCode, true, today);
      }
      store.AddComplaint(typeCode, refNumber, ReportDetails(address, description, isAnonymous, contactInfo), now);
      transcript := transcript + [Bot(Confirmation(refNumber))];
      ResetChat();
    }

    /** `processUserInput`: the interceptors first, then the current step's handling. */
    method ProcessUserInput(message: string, today: Date, now: string)
      requires ValidDate(today) && Consistent(State())
      modifies this, store, store.storage
      ensures Consistent(State())
      ensures var t := Respond(old(State()), message, today, old(dailyCounter));
              && State() == t.next && dailyCounter == t.counter
              && transcript == old(transcript) + [Bot(t.reply)]
      ensures var t := Respond(old(State()), message, today, old(dailyCounter));
              store.complaints == AfterFiling(old(store.complaints), t.filing, now)
      ensures var t := Respond(old(State()), message, today, old(dailyCounter));
              t.filing.None? ==>
                && store.storage.saved == old(store.storage.saved)
                && store.errorShown == old(store.errorShown) && store.listing == old(store.listing)
      ensures var t := Respond(old(State()), message, today, old(dailyCounter));
              t.filing.Some? ==>
                && store.storage.saved == (if old(store.storage.failing) then old(store.storage.saved) else Some(store.complaints))
                && !store.errorShown && store.listing == Render(store.Shown())
      ensures store.storage.failing == old(store.storage.failing) && store.initialized == old(store.initialized)
      ensures store.typeFilter == old(store.typeFilter) && store.statusFilter == old(store.statusFilter)
    {
      RespondConsistent(State(), message, today, dailyCounter);
      var lowerMsg := ToLower(message);
      if IsGreeting(lowerMsg) {
        transcript := transcript + [Bot(Greeting)];
        return;
      }
      if Contains(lowerMsg, "passport") {
        transcript := transcript + [Bot(PassportInfo(PassportTopicOf(lowerMsg)))];
        return;
      }
      if IsStatusQuery(lowerMsg) {
        transcript := transcript + [Bot(StatusInfo(StatusCheck(message)))];
        return;
      }
      if step == AwaitingInquiry {
        ClassifyInitialInquiry(lowerMsg);
        return;
      }
      if step == AwaitingAddress {
        address := Some(message);
        if complaintType.Some? {
          if complaintType.value != SUB {
            step := AwaitingAnonymity;
            transcript := transcript + [Bot(AskAnonymity)];
          } else {
            step := AwaitingAnonymity;
            transcript := transcript + [Bot(AskContact)];
          }
        } else {
          step := AwaitingDetails;
          transcript := transcript + [Bot(AskPermitDetails(permitType))];
        }
        return;
      }
      if step == AwaitingAnonymity {
        if complaintType == Some(SUB) {
          isAnonymous := false;
          contactInfo := Some(message);
          transcript := transcript + [Bot(AskHousingDetails)];
        } else {
          isAnonymous := Contains(lowerMsg, "yes") || Contains(lowerMsg, "anonymous");
          transcript := transcript + [Bot(AskIssueDetails)];
        }
        step := AwaitingDetails;
        return;
      }
      if step == AwaitingDetails {
        ghost var filed := State().(description := Some(message));
        description := Some(message);
        assert State() == filed;
        FinalizeReport(today, now);
      }
    }

    /**
     * `handleUserInput` (the Enter key): the input is trimmed, an empty one is ignored, and
     * otherwise it is echoed to the transcript and processed. The one-second delay before
     * processing is not modelled.
     */
    method HandleUserInput(input: string, today: Date, now: string)
      requires ValidDate(today) && Consistent(State())
      modifies this, store, store.storage
      ensures Consistent(State())
      ensures Trim(input) == [] ==> unchanged(this) && unchanged(store) && unchanged(store.storage)
      ensures var message := Trim(input);
              message != [] ==>
                var t := Respond(old(State()), message, today, old(dailyCounter));
                && State() == t.next && dailyCounter == t.counter
                && transcript == old(transcript) + [User(message), Bot(t.reply)]
                && store.complaints == AfterFiling(old(store.complaints), t.filing, now)
      ensures var message := Trim(input);
              var t := Respond(old(State()), message, today, old(dailyCounter));
              message != [] && t.filing.None? ==>
                && store.storage.saved == old(store.storage.saved)
                && store.errorShown == old(store.errorShown) && store.listing == old(store.listing)
      ensures var message := Trim(input);
              var t := Respond(old(State()), message, today, old(dailyCounter));
              message != [] && t.filing.Some? ==>
                && store.storage.saved == (if old(store.storage.failing) then old(store.storage.saved) else Some(store.complaints))
                && !store.errorShown && store.listing == Render(store.Shown())
      ensures store.storage.failing == old(store.storage.failing) && store.initialized == old(store.initialized)
      ensures store.typeFilter == old(store.typeFilter) && store.statusFilter == old(store.statusFilter)
    {
      var message := Trim(input);
      if message == [] {
        return;
      }
      transcript := transcript + [User(message)];
      ProcessUserInput(message, today, now);
    }

    /** The chat button: the conversation restarts and the bot greets. */
    method OpenChat()
      modifies this
      ensures State() == Reset(old(State())) && dailyCounter == old(dailyCounter)
      ensures transcript == old(transcript) + [Bot(Greeting)]
    {
      ResetChat();
      transcript := transcript + [Bot(Greeting)];
    }

    /** The anonymity checkbox: its state is copied into `chatState.isAnonymous`. */
    method SetAnonymous(checked: bool)
      modifies this
      ensures State() == old(State()).(isAnonymous := checked)
      ensures dailyCounter == old(dailyCounter) && transcript == old(transcript)
    {
      isAnonymous := checked;
    }
  }
}
