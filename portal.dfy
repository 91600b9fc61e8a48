/**
 * The portal page (script.js): the signup form's checks, the status badge of the "My
 * Complaints" list, the two slideshows, and the sign-in state with its display-name fallback.
 */
module Portal {
  import opened Wrappers
  import opened Text
  import Complaints

  // ---------------------------------------------------------------- signup checks

  /** `[^\s@]`: a character allowed in each part of an email address. */
  predicate EmailChar(c: char) { c != '@' && !IsSpace(c) }

  predicate EmailChars(s: string) { forall i :: 0 <= i < |s| ==> EmailChar(s[i]) }

  /**
   * `/^[^\s@]+@[^\s@]+\.[^\s@]+$/` read as the regular expression says: a non-empty local
   * part, `@`, a non-empty name, `.`, a non-empty last part, and no `@` or white space in
   * any of the three parts.
   */
  ghost predicate EmailPattern(s: string)
  {
    exists a, d :: 0 < a && a + 1 < d && d + 1 < |s| && s[a] == '@' && s[d] == '.'
                   && EmailChars(s[..a]) && EmailChars(s[a + 1..d]) && EmailChars(s[d + 1..])
  }

  /**
   * The same check done by looking: the first `@` is not the first character, nothing
   * around it is `@` or white space, and the text after it has a `.` that is neither its
   * first nor its last character.
   */
  predicate IsEmail(s: string)
  {
    var at := IndexOf(s, '@');
    && 0 < at < |s|
    && EmailChars(s[..at]) && EmailChars(s[at + 1..])
    && var domain := s[at + 1..];
       |domain| >= 3 && IndexOf(domain[1..|domain| - 1], '.') < |domain| - 2
  }

  /** The direct check accepts exactly the addresses the regular expression matches. */
  lemma EmailCheckIsPattern(s: string)
    ensures IsEmail(s) <==> EmailPattern(s)
  {
    if IsEmail(s) {
      EmailCheckSound(s);
    }
    if EmailPattern(s) {
      var a, d :| 0 < a && a + 1 < d && d + 1 < |s| && s[a] == '@' && s[d] == '.'
                  && EmailChars(s[..a]) && EmailChars(s[a + 1..d]) && EmailChars(s[d + 1..]);
      EmailCheckComplete(s, a, d);
    }
  }

  /** Where the direct check succeeds, its `@` and dot split the address as the pattern does. */
  lemma EmailCheckSound(s: string)
    requires IsEmail(s)
    ensures EmailPattern(s)
  {
    var at := IndexOf(s, '@');
    var domain := s[at + 1..];
    var inner := domain[1..|domain| - 1];
    var k := IndexOf(inner, '.');
    var d := at + 2 + k;
    var name, last := s[at + 1..d], s[d + 1..];
    assert s[d] == inner[k];
    forall i | 0 <= i < |name| ensures EmailChar(name[i]) {
      assert name[i] == domain[i];
    }
    forall i | 0 <= i < |last| ensures EmailChar(last[i]) {
      assert last[i] == domain[k + 2 + i];
    }
    assert 0 < at && at + 1 < d && d + 1 < |s| && s[at] == '@' && s[d] == '.'
           && EmailChars(s[..at]) && EmailChars(name) && EmailChars(last);
  }

  /** Where the pattern matches with `@` at `a` and the dot at `d`, the direct check succeeds. */
  lemma EmailCheckComplete(s: string, a: nat, d: nat)
    requires 0 < a && a + 1 < d && d + 1 < |s| && s[a] == '@' && s[d] == '.'
    requires EmailChars(s[..a]) && EmailChars(s[a + 1..d]) && EmailChars(s[d + 1..])
    ensures IsEmail(s)
  {
    var local, name, last := s[..a], s[a + 1..d], s[d + 1..];
    assert forall i :: 0 <= i < a ==> s[i] == local[i];
    var at := IndexOf(s, '@');
    assert at == a;
    var domain := s[at + 1..];
    forall i | 0 <= i < |domain| ensures EmailChar(domain[i]) {
      if a + 1 + i < d {
        assert domain[i] == name[i];
      } else if a + 1 + i > d {
        assert domain[i] == last[a + i - d];
      }
    }
    var inner := domain[1..|domain| - 1];
    assert inner[d - a - 2] == '.';
  }

  /** `/^[6-9]\d{9}$/`: ten ASCII digits, the first of them 6 to 9. */
  predicate IsMobileNumber(s: string)
  {
    |s| == 10 && '6' <= s[0] <= '9' && AllDigits(s)
  }

  /** Read as a number, a mobile number is accepted exactly when it is ten digits from 6000000000 up. */
  lemma MobileNumberRange(s: string)
    ensures IsMobileNumber(s) <==> |s| == 10 && AllDigits(s) && DigitsValue(s) >= 6_000_000_000
  {
    if |s| == 10 && AllDigits(s) {
      LeadingDigit(s);
      ScaleIsProduct(DigitValue(s[0]), 9);
      DigitsValueBound(s[1..]);
      Pow10Nine();
    }
  }

  /** The fields of the signup form as typed. */
  datatype SignupForm = SignupForm(name: string, mobile: string, email: string, address: string, password: string)

  /** What the submit handler does: stop at one of its three alerts, or send the body it builds. */
  datatype SignupOutcome = MissingFields | InvalidEmail | InvalidMobile | Send(body: SignupForm)

  /** The values the handler works with: every field trimmed except the password. */
  function Trimmed(f: SignupForm): SignupForm
  {
    SignupForm(Trim(f.name), Trim(f.mobile), Trim(f.email), Trim(f.address), f.password)
  }

  predicate Incomplete(t: SignupForm)
  {
    t.name == [] || t.mobile == [] || t.email == [] || t.address == [] || t.password == []
  }

  /**
   * The signup handler's checks in their order: the required fields, then the email, then
   * the mobile number; the first that fails ends the handler before any request is made.
   */
  function ValidateSignup(f: SignupForm): (o: SignupOutcome)
    ensures var t := Trimmed(f);
            && (o == MissingFields <==> Incomplete(t))
            && (o == InvalidEmail <==> !Incomplete(t) && !EmailPattern(t.email))
            && (o == InvalidMobile <==> !Incomplete(t) && EmailPattern(t.email) && !IsMobileNumber(t.mobile))
            && (o.Send? <==> !Incomplete(t) && EmailPattern(t.email) && IsMobileNumber(t.mobile))
            && (o.Send? ==> o.body == t)
  {
    var t := Trimmed(f);
    EmailCheckIsPattern(t.email);
    if Incomplete(t) then MissingFields
    else if !IsEmail(t.email) then InvalidEmail
    else if !IsMobileNumber(t.mobile) then InvalidMobile
    else Send(t)
  }

  /** Nothing but white space. */
  predicate Blank(s: string) { forall i :: 0 <= i < |s| ==> IsSpace(s[i]) }

  /** A field left blank, or an empty password, is what the first alert reports. */
  lemma MissingFieldsIffBlank(f: SignupForm)
    ensures ValidateSignup(f) == MissingFields <==>
              Blank(f.name) || Blank(f.mobile) || Blank(f.email) || Blank(f.address) || f.password == []
  {
    TrimEmptyIffBlank(f.name);
    TrimEmptyIffBlank(f.mobile);
    TrimEmptyIffBlank(f.email);
    TrimEmptyIffBlank(f.address);
  }

  /** A request that is sent carries no field that starts or ends with white space. */
  lemma SentFieldsAreTrimmed(f: SignupForm)
    requires ValidateSignup(f).Send?
    ensures var b := ValidateSignup(f).body;
            && !IsSpace(b.name[0]) && !IsSpace(b.name[|b.name| - 1])
            && !IsSpace(b.address[0]) && !IsSpace(b.address[|b.address| - 1])
            && !IsSpace(b.email[0]) && !IsSpace(b.email[|b.email| - 1])
  {
    TrimShape(f.name);
    TrimShape(f.address);
    TrimShape(f.email);
  }

  // ---------------------------------------------------------------- status badge

  /** The badge class `fetchUserComplaints` gives a complaint, chosen by its lower-cased status. */
  function StatusClass(status: string): (c: string)
    ensures c == "status-pending" || c == "status-in-review" || c == "status-resolved"
    ensures c == "status-in-review" <==> ToLower(status) == "in review"
    ensures c == "status-resolved" <==> ToLower(status) == "resolved"
  {
    var lower := ToLower(status);
    if lower == "pending" then "status-pending"
    else if lower == "in review" then "status-in-review"
    else if lower == "resolved" then "status-resolved"
    else "status-pending"
  }

  /**
   * For the three statuses the switch names, the class is `status-` followed by the status
   * key the chat's complaint list uses (lower case, first space as a dash).
   */
  lemma StatusClassFollowsKey(status: string)
    requires var lower := ToLower(status); lower == "pending" || lower == "in review" || lower == "resolved"
    ensures StatusClass(status) == "status-" + Complaints.StatusKey(status)
  {
    var lower := ToLower(status);
    var key := Complaints.StatusKey(status);
    assert key == ReplaceFirst(lower, ' ', '-');
    BadgeSpellings();
    if lower == "in review" {
      ReplaceFirstAt("in", "review", ' ', '-');
      assert key == "in-review";
    } else {
      ReplaceFirstAbsent(lower, ' ', '-');
      assert key == lower;
    }
  }

  /** The three status words and badge classes, spelled out piece by piece. */
  lemma BadgeSpellings()
    ensures "in review" == "in" + [' '] + "review" && "in" + ['-'] + "review" == "in-review"
    ensures ' ' !in "pending" && ' ' !in "resolved"
    ensures "status-" + "pending" == "status-pending" && "status-" + "in-review" == "status-in-review"
    ensures "status-" + "resolved" == "status-resolved"
  {
  }

  // ---------------------------------------------------------------- slideshows

  /** The slide shown after `k` advances from the first of `n`, counted one step at a time. */
  function SlideAfter(k: nat, n: nat): (i: nat)
    requires n > 0
    ensures i < n
  {
    if k == 0 then 0
    else if SlideAfter(k - 1, n) + 1 < n then SlideAfter(k - 1, n) + 1
    else 0
  }

  /** The first round visits the slides in order. */
  lemma {:induction false} SlideAfterFirstRound(k: nat, n: nat)
    requires k < n
    ensures SlideAfter(k, n) == k
  {
    if k > 0 {
      SlideAfterFirstRound(k - 1, n);
    }
  }

  /** The slides cycle with period `n`. */
  lemma {:induction false} SlideAfterPeriodic(k: nat, n: nat)
    requires n > 0
    ensures SlideAfter(k + n, n) == SlideAfter(k, n)
  {
    if k == 0 {
      SlideAfterFirstRound(n - 1, n);
    } else {
      SlideAfterPeriodic(k - 1, n);
    }
  }

  /** `(i + 1) % n`, the script's step, is one step of `SlideAfter`. */
  lemma StepIsMod(i: nat, n: nat)
    requires i < n
    ensures (i + 1) % n == if i + 1 < n then i + 1 else 0
  {
    if i + 1 < n {
      assert (i + 1) % n == i + 1;
    } else {
      assert i + 1 == n;
    }
  }

  /** `currentSlide` over the page's `count` slides. */
  class Slideshow {
    const count: nat
    var current: nat
    ghost var ticks: nat

    ghost predicate Valid()
      reads this
    {
      count > 0 && current == SlideAfter(ticks, count)
    }

    /** `showSlide(0)` at load. */
    constructor (count: nat)
      requires count > 0
      ensures Valid() && this.count == count && current == 0 && ticks == 0
    {
      this.count := count;
      current := 0;
      ticks := 0;
    }

    /** `nextSlide`: one slide forward, back to the first after the last. */
    method NextSlide()
      requires Valid()
      modifies this
      ensures Valid() && ticks == old(ticks) + 1
      ensures current == (old(current) + 1) % count
    {
      StepIsMod(current, count);
      current := (current + 1) % count;
      ticks := ticks + 1;
    }
  }

  const HeroImages: seq<string> := ["images/city-1.jpg", "images/city-2.jpg", "images/city-3.jpg", "images/city-4.jpg"]

  /** `currentImageIndex` over `heroImages`. */
  class HeroSlideshow {
    const images: seq<string>
    var index: nat
    ghost var shown: nat

    ghost predicate Valid()
      reads this
    {
      |images| > 0 && index == SlideAfter(shown, |images|)
    }

    constructor (images: seq<string>)
      requires |images| > 0
      ensures Valid() && this.images == images && index == 0 && shown == 0
    {
      this.images := images;
      index := 0;
      shown := 0;
    }

    /** `updateSlideshowBackground`: show the current image, then move to the next one. */
    method UpdateBackground() returns (image: string)
      requires Valid()
      modifies this
      ensures Valid() && shown == old(shown) + 1
      ensures image == images[SlideAfter(old(shown), |images|)]
      ensures index == (old(index) + 1) % |images|
    {
      image := images[index];
      StepIsMod(index, |images|);
      index := (index + 1) % |images|;
      shown := shown + 1;
    }
  }

  // ---------------------------------------------------------------- sign-in state

  /** `data.userName || email.split('@')[0]`: a missing or empty name falls back to the text before the first `@`. */
  function DisplayName(userName: Option<string>, email: string): (r: string)
    ensures userName.Some? && userName.value != [] ==> r == userName.value
    ensures !(userName.Some? && userName.value != []) ==> r == email[..IndexOf(email, '@')] && '@' !in r
  {
    if userName.Some? && userName.value != [] then userName.value
    else
      SplitHead(email, '@');
      Split(email, '@')[0]
  }

  /** `isAuthenticated`, `currentUserId` and `currentUserName`. */
  datatype Auth = Auth(isAuthenticated: bool, userId: Option<string>, userName: string)

  const Guest: Auth := Auth(false, None, "Guest")

  /** A login reply: `response.ok` and the fields of its body, `undefined` as `None`. */
  datatype LoginReply = LoginReply(ok: bool, userId: Option<string>, userName: Option<string>, token: Option<string>)

  /** `localStorage.setItem` keeps the text of its value; `undefined` is kept as "undefined". */
  function StoredText(v: Option<string>): (r: string)
    ensures v.Some? ==> r == v.value
    ensures v.None? ==> r == "undefined"
  {
    if v.Some? then v.value else "undefined"
  }

  /** The login handler's effect on the state: set on success, untouched otherwise. */
  function LoginAuth(a: Auth, email: string, reply: LoginReply): (r: Auth)
    ensures r.isAuthenticated <==> reply.ok || a.isAuthenticated
    ensures reply.ok ==> r.userId == reply.userId && r.userName == DisplayName(reply.userName, email)
    ensures !reply.ok ==> r == a
  {
    if reply.ok then Auth(true, reply.userId, DisplayName(reply.userName, email)) else a
  }

  /** The login handler's effect on `localStorage`. */
  function LoginStorage(saved: map<string, string>, email: string, reply: LoginReply): (r: map<string, string>)
    ensures reply.ok ==> r.Keys == saved.Keys + {"jwtToken", "userName", "userId"}
    ensures reply.ok ==> r["jwtToken"] == StoredText(reply.token) && r["userId"] == StoredText(reply.userId)
    ensures reply.ok ==> r["userName"] == DisplayName(reply.userName, email)
    ensures reply.ok ==> forall k :: k in saved && k !in {"jwtToken", "userName", "userId"} ==> r[k] == saved[k]
    ensures !reply.ok ==> r == saved
  {
    if reply.ok then
      saved["jwtToken" := StoredText(reply.token)]["userName" := DisplayName(reply.userName, email)]["userId" := StoredText(reply.userId)]
    else saved
  }

  /** The startup check: any non-empty stored token signs the demo citizen in. */
  function Restore(saved: map<string, string>, a: Auth): (r: Auth)
    ensures r.isAuthenticated <==> a.isAuthenticated || ("jwtToken" in saved && saved["jwtToken"] != [])
    ensures r != a ==> r == Auth(true, Some("demoUserId123"), "Demo Citizen")
    ensures "jwtToken" !in saved || saved["jwtToken"] == [] ==> r == a
  {
    if "jwtToken" in saved && saved["jwtToken"] != [] then Auth(true, Some("demoUserId123"), "Demo Citizen") else a
  }

  /**
   * After a successful login the next page load is signed in, and signing out in between
   * does not change that, since it leaves the token in storage, unless the login reply's
   * token was the empty string; the restored user is always the demo citizen, not the one
   * who logged in.
   */
  lemma ReloadAfterLogin(saved: map<string, string>, email: string, reply: LoginReply)
    requires reply.ok
    ensures var r := Restore(LoginStorage(saved, email, reply), Guest);
            && (r.isAuthenticated <==> reply.token != Some(""))
            && (r.isAuthenticated ==> r == Auth(true, Some("demoUserId123"), "Demo Citizen"))
  {
    var stored := LoginStorage(saved, email, reply);
    assert stored["jwtToken"] == StoredText(reply.token);
  }

  /** The page's sign-in variables and the `localStorage` keys they are saved under. */
  class SignInState {
    var isAuthenticated: bool
    var currentUserId: Option<string>
    var currentUserName: string
    var storage: map<string, string>

    function State(): Auth
      reads this
    {
      Auth(isAuthenticated, currentUserId, currentUserName)
    }

    /** Page load: the guest defaults, then the stored-token check at the end of the script. */
    constructor (storage: map<string, string>)
      ensures State() == Restore(storage, Guest) && this.storage == storage
    {
      this.storage := storage;
      isAuthenticated := false;
      currentUserId := None;
      currentUserName := "Guest";
      new;
      if "jwtToken" in storage && storage["jwtToken"] != [] {
        isAuthenticated := true;
        currentUserId := Some("demoUserId123");
        currentUserName := "Demo Citizen";
      }
    }

    /** The login form's handler, given the server's reply. */
    method Login(email: string, reply: LoginReply)
      modifies this
      ensures State() == LoginAuth(old(State()), email, reply)
      ensures storage == LoginStorage(old(storage), email, reply)
    {
      if reply.ok {
        isAuthenticated := true;
        currentUserId := reply.userId;
        currentUserName := DisplayName(reply.userName, email);
        storage := storage["jwtToken" := StoredText(reply.token)];
        storage := storage["userName" := currentUserName];
        storage := storage["userId" := StoredText(currentUserId)];
      }
    }

    /** The sign-out button: back to the guest; storage is left as it is. */
    method SignOut()
      modifies this
      ensures State() == Guest && storage == old(storage)
    {
      isAuthenticated := false;
      currentUserId := None;
      currentUserName := "Guest";
    }
  }
}
