/**
 * The complaint store of the chat intake (chat.js, `complaintStore`): the list of filed
 * complaints and permit requests, its copy in the browser's storage, the filter that the
 * "My Complaints" section shows, and the error banner.
 */
module Complaints {
  import opened Wrappers
  import opened Text

  // ---------------------------------------------------------------- records

  /** One entry of a record's history. `date` is an ISO timestamp, treated as opaque text. */
  datatype Update = Update(date: string, status: string, message: string)

  /** A filed complaint or permit request; `id` is its reference number. */
  datatype Complaint = Complaint(
    id: string,
    typeCode: string,
    isPermit: bool,
    address: Option<string>,
    description: Option<string>,
    status: string,
    dateSubmitted: string,
    isAnonymous: bool,
    contactInfo: Option<string>,
    updates: seq<Update>)

  /** The `details` object the dialogue hands to `addComplaint`. */
  datatype ReportDetails = ReportDetails(
    address: Option<string>,
    description: Option<string>,
    isAnonymous: bool,
    contactInfo: Option<string>)

  const Submitted: string := "Submitted"
  const Registered: string := "Complaint registered successfully"

  /** JavaScript's `v || null` on an optional string: the empty string is falsy and becomes `null`. */
  function OrNull(v: Option<string>): (r: Option<string>)
    ensures r.Some? <==> v.Some? && v.value != []
    ensures r.Some? ==> r == v
  {
    if v.Some? && v.value != [] then v else None
  }

  /**
   * What the store keeps true of every record it creates: a history that opens with the
   * submission, a current status that is the latest history entry's, and a permit flag that
   * agrees with the reference number's prefix.
   */
  predicate WellFormed(c: Complaint)
  {
    && |c.updates| >= 1
    && c.updates[0].status == Submitted
    && c.status == c.updates[|c.updates| - 1].status
    && (c.isPermit <==> StartsWith(c.id, "PMT"))
  }

  /** The record `addComplaint` builds; `now` stands for the clock reading. */
  function NewComplaint(typeCode: string, refNumber: string, details: ReportDetails, now: string): (c: Complaint)
    ensures WellFormed(c)
    ensures c.id == refNumber && c.typeCode == typeCode
    ensures c.isPermit <==> StartsWith(refNumber, "PMT")
    ensures c.status == Submitted && c.updates == [Update(now, Submitted, Registered)]
    ensures c.contactInfo.None? <==> details.contactInfo.None? || details.contactInfo.value == []
    ensures c.contactInfo.Some? ==> c.contactInfo == details.contactInfo
    ensures c.address == details.address && c.description == details.description
    ensures c.isAnonymous == details.isAnonymous && c.dateSubmitted == now
  {
    Complaint(
      id := refNumber,
      typeCode := typeCode,
      isPermit := StartsWith(refNumber, "PMT"),
      address := details.address,
      description := details.description,
      status := Submitted,
      dateSubmitted := now,
      isAnonymous := details.isAnonymous,
      contactInfo := OrNull(details.contactInfo),
      updates := [Update(now, Submitted, Registered)])
  }

  /** The effect of `updateStatus` on the record it finds. */
  function WithStatus(c: Complaint, newStatus: string, message: string, now: string): (d: Complaint)
    ensures d.status == newStatus
    ensures |d.updates| == |c.updates| + 1 && d.updates[..|c.updates|] == c.updates
    ensures d.updates[|c.updates|] == Update(now, newStatus, message)
    ensures d.(status := c.status, updates := c.updates) == c
  {
    c.(status := newStatus, updates := c.updates + [Update(now, newStatus, message)])
  }

  /** A status change keeps a record well formed: its history only grows at the end. */
  lemma WithStatusWellFormed(c: Complaint, newStatus: string, message: string, now: string)
    requires WellFormed(c)
    ensures WellFormed(WithStatus(c, newStatus, message, now))
  {
  }

  /** `Array.prototype.find` by id: the position of the first record with that id, `|cs|` when none. */
  function FindIndex(cs: seq<Complaint>, id: string): (i: nat)
    ensures i <= |cs|
    ensures i < |cs| ==> cs[i].id == id
    ensures forall k :: 0 <= k < i ==> cs[k].id != id
  {
    if cs == [] then 0 else if cs[0].id == id then 0 else 1 + FindIndex(cs[1..], id)
  }

  /** The list after `updateStatus`: only the first record with the id changes, if there is one. */
  function StatusUpdated(cs: seq<Complaint>, id: string, newStatus: string, message: string, now: string): (r: seq<Complaint>)
    ensures |r| == |cs|
    ensures (forall k :: 0 <= k < |cs| ==> cs[k].id != id) ==> r == cs
    ensures forall k :: 0 <= k < |cs| && k != FindIndex(cs, id) ==> r[k] == cs[k]
    ensures FindIndex(cs, id) < |cs| ==>
              r[FindIndex(cs, id)] == WithStatus(cs[FindIndex(cs, id)], newStatus, message, now)
  {
    var i := FindIndex(cs, id);
    if i < |cs| then cs[i := WithStatus(cs[i], newStatus, message, now)] else cs
  }

  /** Status updates keep every record of a well-formed list well formed. */
  lemma StatusUpdatedWellFormed(cs: seq<Complaint>, id: string, newStatus: string, message: string, now: string)
    requires forall k :: 0 <= k < |cs| ==> WellFormed(cs[k])
    ensures var r := StatusUpdated(cs, id, newStatus, message, now);
            forall k :: 0 <= k < |r| ==> WellFormed(r[k])
  {
    var i := FindIndex(cs, id);
    if i < |cs| {
      WithStatusWellFormed(cs[i], newStatus, message, now);
    }
  }

  // ---------------------------------------------------------------- the filter

  /** The type filter's test: `all`, `complaints` (not a permit) or `permits`. */
  predicate TypeMatches(c: Complaint, typeFilter: string)
  {
    || typeFilter == "all"
    || (typeFilter == "complaints" && !c.isPermit)
    || (typeFilter == "permits" && c.isPermit)
  }

  /** A status as the filter and the list's CSS classes spell it: lower case, first space as `-`. */
  function StatusKey(status: string): (key: string)
    ensures |key| == |status|
    ensures forall k :: 0 <= k < |status| && k != IndexOf(status, ' ') ==> key[k] == Lower(status[k])
    ensures IndexOf(status, ' ') < |status| ==> key[IndexOf(status, ' ')] == '-'
  {
    var lower := ToLower(status);
    assert forall k :: 0 <= k < |status| ==> (lower[k] == ' ' <==> status[k] == ' ');
    assert IndexOf(lower, ' ') == IndexOf(status, ' ') by { SameSpaces(status, lower); }
    ReplaceFirst(lower, ' ', '-')
  }

  lemma {:induction false} SameSpaces(s: string, t: string)
    requires |s| == |t|
    requires forall k :: 0 <= k < |s| ==> (t[k] == ' ' <==> s[k] == ' ')
    ensures IndexOf(t, ' ') == IndexOf(s, ' ')
  {
    if s != [] && s[0] != ' ' {
      SameSpaces(s[1..], t[1..]);
    }
  }

  predicate StatusMatches(c: Complaint, statusFilter: string)
  {
    statusFilter == "all" || StatusKey(c.status) == statusFilter
  }

  predicate Passes(c: Complaint, typeFilter: string, statusFilter: string)
  {
    TypeMatches(c, typeFilter) && StatusMatches(c, statusFilter)
  }

  /** `getFilteredComplaints`: the records passing both filters, in list order. */
  function Filtered(cs: seq<Complaint>, typeFilter: string, statusFilter: string): (r: seq<Complaint>)
    ensures |r| <= |cs|
    ensures forall c :: c in r <==> c in cs && Passes(c, typeFilter, statusFilter)
  {
    if cs == [] then []
    else
      var rest := Filtered(cs[1..], typeFilter, statusFilter);
      if Passes(cs[0], typeFilter, statusFilter) then [cs[0]] + rest else rest
  }

  /** The filter keeps order: filtering a concatenation concatenates the filtered parts. */
  lemma {:induction false} FilteredAppend(a: seq<Complaint>, b: seq<Complaint>, typeFilter: string, statusFilter: string)
    ensures Filtered(a + b, typeFilter, statusFilter) == Filtered(a, typeFilter, statusFilter) + Filtered(b, typeFilter, statusFilter)
  {
    if a == [] {
      assert a + b == b;
    } else {
      assert (a + b)[0] == a[0] && (a + b)[1..] == a[1..] + b;
      FilteredAppend(a[1..], b, typeFilter, statusFilter);
    }
  }

  /** A list every record of which passes comes back whole. */
  lemma {:induction false} FilteredKeepsAll(cs: seq<Complaint>, typeFilter: string, statusFilter: string)
    requires forall k :: 0 <= k < |cs| ==> Passes(cs[k], typeFilter, statusFilter)
    ensures Filtered(cs, typeFilter, statusFilter) == cs
  {
    if cs != [] {
      FilteredKeepsAll(cs[1..], typeFilter, statusFilter);
    }
  }

  /** With both filters at `all` the whole list is shown. */
  lemma FilteredAllAll(cs: seq<Complaint>)
    ensures Filtered(cs, "all", "all") == cs
  {
    FilteredKeepsAll(cs, "all", "all");
  }

  /** `permits` and `complaints` split the list between them. */
  lemma {:induction false} FilteredPartition(cs: seq<Complaint>, statusFilter: string)
    ensures |Filtered(cs, "permits", statusFilter)| + |Filtered(cs, "complaints", statusFilter)|
         == |Filtered(cs, "all", statusFilter)|
  {
    if cs != [] {
      FilteredPartition(cs[1..], statusFilter);
    }
  }

  /** A type filter value other than the three the page offers shows nothing. */
  lemma UnknownTypeFilter(cs: seq<Complaint>, typeFilter: string, statusFilter: string)
    requires typeFilter != "all" && typeFilter != "complaints" && typeFilter != "permits"
    ensures Filtered(cs, typeFilter, statusFilter) == []
  {
    if Filtered(cs, typeFilter, statusFilter) != [] {
      assert Filtered(cs, typeFilter, statusFilter)[0] in Filtered(cs, typeFilter, statusFilter);
    }
  }

  /** The status filter compares spelled keys: "In Review" is listed under `in-review`. */
  lemma InReviewKey()
    ensures StatusKey("In Review") == "in-review"
  {
    var s := "In Review";
    assert IndexOf(s, ' ') == 2 by {
      assert s[0] != ' ' && s[1] != ' ' && s[2] == ' ';
      assert s[1..][1..] == s[2..];
    }
    var key := StatusKey(s);
    assert forall k :: 0 <= k < |key| ==> key[k] == "in-review"[k];
  }

  // ---------------------------------------------------------------- what the page shows

  /**
   * The "My Complaints" list: never rendered yet, the placeholder text for an empty result,
   * or one card per record shown.
   */
  datatype Listing = Unrendered | Placeholder | Cards(shown: seq<Complaint>)

  /** `updateComplaintsList`'s choice between the placeholder and the cards. */
  function Render(shown: seq<Complaint>): (l: Listing)
    ensures l.Placeholder? <==> shown == []
    ensures l.Cards? ==> l.shown == shown
  {
    if shown == [] then Placeholder else Cards(shown)
  }

  /** The browser storage entry `cityComplaints`; `failing` makes its reads and writes throw. */
  class StorageSlot {
    var saved: Option<seq<Complaint>>
    var failing: bool

    constructor (saved: Option<seq<Complaint>>, failing: bool)
      ensures this.saved == saved && this.failing == failing
    {
      this.saved := saved;
      this.failing := failing;
    }
  }

  /**
   * `complaintStore`. `typeFilter` and `statusFilter` are the values of the page's two
   * filter selects, `errorShown` whether the error banner is displayed.
   */
  class ComplaintStore {
    var complaints: seq<Complaint>
    var initialized: bool
    var errorShown: bool
    var typeFilter: string
    var statusFilter: string
    var listing: Listing
    const storage: StorageSlot

    constructor (storage: StorageSlot, typeFilter: string, statusFilter: string)
      ensures this.storage == storage
      ensures complaints == [] && !initialized && !errorShown && listing == Unrendered
      ensures this.typeFilter == typeFilter && this.statusFilter == statusFilter
    {
      this.storage := storage;
      complaints := [];
      initialized := false;
      errorShown := false;
      this.typeFilter := typeFilter;
      this.statusFilter := statusFilter;
      listing := Unrendered;
    }

    /** The listing the current list and filters call for. */
    function Shown(): seq<Complaint>
      reads this
    {
      Filtered(complaints, typeFilter, statusFilter)
    }

    /** `updateComplaintsList`. */
    method Refresh()
      modifies this
      ensures listing == Render(Shown())
      ensures complaints == old(complaints) && initialized == old(initialized) && errorShown == old(errorShown)
      ensures typeFilter == old(typeFilter) && statusFilter == old(statusFilter)
    {
      listing := Render(Filtered(complaints, typeFilter, statusFilter));
    }

    /** `saveComplaints`: write the list, and show or hide the banner by the outcome. */
    method Save()
      modifies this, storage
      ensures storage.failing == old(storage.failing)
      ensures storage.saved == if old(storage.failing) then old(storage.saved) else Some(complaints)
      ensures errorShown == old(storage.failing)
      ensures complaints == old(complaints) && initialized == old(initialized) && listing == old(listing)
      ensures typeFilter == old(typeFilter) && statusFilter == old(statusFilter)
    {
      if storage.failing {
        errorShown := true;
      } else {
        storage.saved := Some(complaints);
        errorShown := false;
      }
    }

    /**
     * `loadComplaints`: a failing read shows the banner and changes nothing else; a saved
     * list replaces the current one and hides the banner; no saved list empties the store
     * and leaves the banner as it was.
     */
    method Load()
      modifies this
      ensures old(storage.failing) ==>
                complaints == old(complaints) && errorShown && listing == old(listing)
      ensures !old(storage.failing) && old(storage.saved).Some? ==>
                complaints == old(storage.saved).value && !errorShown && listing == Render(Shown())
      ensures !old(storage.failing) && old(storage.saved).None? ==>
                complaints == [] && errorShown == old(errorShown) && listing == Render(Shown())
      ensures initialized == old(initialized)
      ensures typeFilter == old(typeFilter) && statusFilter == old(statusFilter)
    {
      if storage.failing {
        errorShown := true;
      } else if storage.saved.Some? {
        complaints := storage.saved.value;
        Refresh();
        errorShown := false;
      } else {
        complaints := [];
        Refresh();
      }
    }

    /** `init`: load once; every later call changes nothing. */
    method Init()
      modifies this
      ensures initialized
      ensures old(initialized) ==>
                complaints == old(complaints) && errorShown == old(errorShown) && listing == old(listing)
      ensures !old(initialized) && old(storage.failing) ==>
                complaints == old(complaints) && errorShown && listing == old(listing)
      ensures !old(initialized) && !old(storage.failing) ==>
                complaints == old(storage.saved).GetOr([]) && listing == Render(Shown())
      ensures !old(initialized) && !old(storage.failing) && old(storage.saved).Some? ==> !errorShown
      ensures !old(initialized) && !old(storage.failing) && old(storage.saved).None? ==> errorShown == old(errorShown)
      ensures storage.saved == old(storage.saved) && storage.failing == old(storage.failing)
      ensures typeFilter == old(typeFilter) && statusFilter == old(statusFilter)
    {
      if initialized {
        return;
      }
      Load();
      initialized := true;
    }

    /** `addComplaint`: append the new record, save, re-render, and hide the banner. */
    method AddComplaint(typeCode: string, refNumber: string, details: ReportDetails, now: string)
      modifies this, storage
      ensures complaints == old(complaints) + [NewComplaint(typeCode, refNumber, details, now)]
      ensures storage.failing == old(storage.failing)
      ensures storage.saved == if old(storage.failing) then old(storage.saved) else Some(complaints)
      ensures !errorShown && listing == Render(Shown())
      ensures initialized == old(initialized)
      ensures typeFilter == old(typeFilter) && statusFilter == old(statusFilter)
    {
      complaints := complaints + [NewComplaint(typeCode, refNumber, details, now)];
      Save();
      Refresh();
      errorShown := false;
    }

    /**
     * `updateStatus`: change the first record with the id and save; with no such record
     * nothing at all changes.
     */
    method UpdateStatus(refNumber: string, newStatus: string, message: string, now: string)
      modifies this, storage
      ensures complaints == StatusUpdated(old(complaints), refNumber, newStatus, message, now)
      ensures FindIndex(old(complaints), refNumber) == |old(complaints)| ==>
                storage.saved == old(storage.saved) && errorShown == old(errorShown) && listing == old(listing)
      ensures FindIndex(old(complaints), refNumber) < |old(complaints)| ==>
                && storage.saved == (if old(storage.failing) then old(storage.saved) else Some(complaints))
                && errorShown == old(storage.failing)
                && listing == Render(Shown())
      ensures storage.failing == old(storage.failing) && initialized == old(initialized)
      ensures typeFilter == old(typeFilter) && statusFilter == old(statusFilter)
    {
      var i := FindIndex(complaints, refNumber);
      if i < |complaints| {
        complaints := complaints[i := WithStatus(complaints[i], newStatus, message, now)];
        Save();
        Refresh();
      }
    }

    /**
     * A change of either filter select. The change listeners exist only once `init` has
     * attached them, so before that the list is not re-rendered.
     */
    method SelectFilters(typeValue: string, statusValue: string)
      modifies this
      ensures typeFilter == typeValue && statusFilter == statusValue
      ensures listing == if initialized then Render(Shown()) else old(listing)
      ensures complaints == old(complaints) && initialized == old(initialized) && errorShown == old(errorShown)
    {
      typeFilter := typeValue;
      statusFilter := statusValue;
      if initialized {
        Refresh();
      }
    }
  }
}
