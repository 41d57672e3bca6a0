/** The community scam-report feed (src/components/ScamReportingHub.tsx): the
    list of reports, the draft of a new report and the dialog flag, with the
    handlers that update them. */
module ScamReportingHub {
  import opened Base

  datatype User = User(name: string, avatar: string)

  datatype ScamReport = ScamReport(
    id: string,
    title: string,
    description: string,
    scamType: string,
    images: seq<string>,
    user: User,
    timestamp: string,
    likes: int,
    comments: int,
    isLiked: bool)

  /** The `newReport` draft the dialog edits. */
  datatype Draft = Draft(title: string, description: string, scamType: string, images: seq<string>)

  /** The `name` attributes of the two text inputs wired to `handleInputChange`. */
  datatype DraftField = TitleField | DescriptionField

  const EmptyDraft := Draft("", "", "", [])
  const CurrentUser := User("Current User", "https://api.dicebear.com/7.x/avataaars/svg?seed=CurrentUser")

  // ---------------------------------------------------------------------------
  // Likes

  /** A liked report counts its own like, so its counter is at least 1. */
  predicate LikeConsistent(r: ScamReport) {
    r.likes >= 0 && (r.isLiked ==> r.likes >= 1)
  }

  predicate AllLikeConsistent(reports: seq<ScamReport>) {
    forall i :: 0 <= i < |reports| ==> LikeConsistent(reports[i])
  }

  /** The per-report updater of `toggleLike`. */
  function ToggleReport(r: ScamReport, id: string): (t: ScamReport)
    ensures r.id != id ==> t == r
    ensures r.id == id ==> t.isLiked == !r.isLiked
    ensures r.id == id ==> t.likes == (if r.isLiked then r.likes - 1 else r.likes + 1)
    ensures t.(isLiked := r.isLiked, likes := r.likes) == r
  {
    if r.id == id then
      r.(isLiked := !r.isLiked, likes := if r.isLiked then r.likes - 1 else r.likes + 1)
    else r
  }

  /** `prev.map(...)` in `toggleLike`: same length and order, only the reports
      with that id flip their flag and move their counter by one. */
  function ToggleLikeIn(reports: seq<ScamReport>, id: string): (ts: seq<ScamReport>)
    ensures |ts| == |reports|
    ensures forall i :: 0 <= i < |reports| && reports[i].id != id ==> ts[i] == reports[i]
    ensures forall i :: 0 <= i < |reports| && reports[i].id == id ==>
      && ts[i].isLiked == !reports[i].isLiked
      && ts[i].likes == (if reports[i].isLiked then reports[i].likes - 1 else reports[i].likes + 1)
      && ts[i].(isLiked := reports[i].isLiked, likes := reports[i].likes) == reports[i]
  {
    seq(|reports|, i requires 0 <= i < |reports| => ToggleReport(reports[i], id))
  }

  /** Toggling the same id twice restores the feed. */
  lemma ToggleTwiceRestores(reports: seq<ScamReport>, id: string)
    ensures ToggleLikeIn(ToggleLikeIn(reports, id), id) == reports
  {
    var twice := ToggleLikeIn(ToggleLikeIn(reports, id), id);
    forall i | 0 <= i < |reports| ensures twice[i] == reports[i] {
      var r := reports[i];
      if r.id == id {
        assert twice[i] == ToggleReport(ToggleReport(r, id), id);
      }
    }
  }

  /** Toggling an id no report carries changes nothing. */
  lemma ToggleAbsentId(reports: seq<ScamReport>, id: string)
    requires forall i :: 0 <= i < |reports| ==> reports[i].id != id
    ensures ToggleLikeIn(reports, id) == reports
  {
  }

  /** Toggling keeps every liked report's counter at 1 or more. */
  lemma TogglePreservesLikes(reports: seq<ScamReport>, id: string)
    requires AllLikeConsistent(reports)
    ensures AllLikeConsistent(ToggleLikeIn(reports, id))
  {
  }

  // ---------------------------------------------------------------------------
  // Submitting a draft

  /** The report `handleSubmit` builds from the draft; `id` stands for
      `Date.now().toString()`. */
  function NewReport(d: Draft, id: string): (r: ScamReport)
    ensures r.id == id && r.user == CurrentUser && r.timestamp == "Just now"
    ensures r.title == d.title && r.description == d.description
    ensures r.scamType == d.scamType && r.images == d.images
    ensures r.likes == 0 && r.comments == 0 && !r.isLiked
    ensures LikeConsistent(r)
  {
    ScamReport(id, d.title, d.description, d.scamType, d.images, CurrentUser, "Just now", 0, 0, false)
  }

  /** Prepending a fresh report keeps every liked report's counter at 1 or more. */
  lemma SubmitPreservesLikes(reports: seq<ScamReport>, d: Draft, id: string)
    requires AllLikeConsistent(reports)
    ensures AllLikeConsistent([NewReport(d, id)] + reports)
  {
    var rs := [NewReport(d, id)] + reports;
    forall i | 0 <= i < |rs| ensures LikeConsistent(rs[i]) {
      if i > 0 {
        assert rs[i] == reports[i - 1];
      }
    }
  }

  // ---------------------------------------------------------------------------
  // The feed's initial contents

  // The ten sample reports the feed starts with.

  const SeedReport1 := ScamReport("1", "Fake Amazon Order Confirmation Email",
    "I received an email claiming to be from Amazon about an order I never placed. It had a link to 'cancel' the order but led to a phishing page.",
    "Phishing", ["https://images.unsplash.com/photo-1563013544-824ae1b704d3?w=800&q=80"],
    User("Alex Johnson", "https://api.dicebear.com/7.x/avataaars/svg?seed=Alex"), "2 hours ago", 24, 8, false)

  const SeedReport2 := ScamReport("2", "Fake Job Offer via WhatsApp",
    "Received a message offering a job with a suspicious link. They asked for an upfront payment to proceed with hiring.",
    "Job Scam", ["https://images.unsplash.com/photo-1522202176988-66273c2fd55f?w=800&q=80"],
    User("Priya Sharma", "https://api.dicebear.com/7.x/avataaars/svg?seed=Priya"), "5 hours ago", 17, 4, false)

  const SeedReport3 := ScamReport("3", "Suspicious Bank Call Asking for OTP",
    "A person posing as a bank official called and asked me to share an OTP to verify my account. Luckily, I didn’t share it.",
    "OTP Fraud", ["https://images.unsplash.com/photo-1518779578993-ec3579fee39f?w=800&q=80"],
    User("Ravi Patel", "https://api.dicebear.com/7.x/avataaars/svg?seed=Ravi"), "Today at 9:45 AM", 31, 5, false)

  const SeedReport4 := ScamReport("4", "Online Seller Demanded Advance Then Disappeared",
    "I found a clothing seller on Instagram who asked for full payment in advance. Once I paid, they blocked me.",
    "Online Shopping Scam", ["https://images.unsplash.com/photo-1605902711622-cfb43c44367d?w=800&q=80"],
    User("Meera Nair", "https://api.dicebear.com/7.x/avataaars/svg?seed=Meera"), "Yesterday", 45, 12, true)

  const SeedReport5 := ScamReport("5", "Lottery Win Message on Facebook",
    "Received a message claiming I won a lottery from Facebook. They asked me to pay ₹2,000 to claim the prize.",
    "Lottery Scam", ["https://images.unsplash.com/photo-1531746790731-6c087fecd65a?w=800&q=80"],
    User("Arun Kumar", "https://api.dicebear.com/7.x/avataaars/svg?seed=Arun"), "3 days ago", 12, 2, false)

  const SeedReport6 := ScamReport("6", "Fake Tech Support Call",
    "Got a call claiming my computer was hacked and they needed remote access to fix it. They asked me to install an app.",
    "Tech Support Scam", ["https://images.unsplash.com/photo-1581092919533-3e42b1e276a7?w=800&q=80"],
    User("Lena Park", "https://api.dicebear.com/7.x/avataaars/svg?seed=Lena"), "Just now", 7, 1, false)

  const SeedReport7 := ScamReport("7", "Fraudulent UPI Request on Paytm",
    "Received a Paytm UPI request from a person pretending to be a buyer. They sent a fake screenshot of payment success.",
    "UPI Scam", ["https://images.unsplash.com/photo-1509395176047-4a66953fd231?w=800&q=80"],
    User("Nikhil Verma", "https://api.dicebear.com/7.x/avataaars/svg?seed=Nikhil"), "4 hours ago", 19, 3, true)

  const SeedReport8 := ScamReport("8", "Instagram Influencer Scam",
    "A fake influencer promised paid promotions and asked for a deposit. After I paid, they vanished.",
    "Social Media Scam", ["https://images.unsplash.com/photo-1494790108377-be9c29b29330?w=800&q=80"],
    User("Sara Williams", "https://api.dicebear.com/7.x/avataaars/svg?seed=Sara"), "Last week", 28, 9, false)

  const SeedReport9 := ScamReport("9", "Fake Police Call Threatening Arrest",
    "Caller claimed to be from cybercrime police and said my Aadhaar was used in illegal activities. Demanded money to 'close the case.'",
    "Impersonation Scam", ["https://images.unsplash.com/photo-1629904853893-c2c8981a1dc5?w=800&q=80"],
    User("Deepak Joshi", "https://api.dicebear.com/7.x/avataaars/svg?seed=Deepak"), "6 days ago", 34, 6, false)

  const SeedReport10 := ScamReport("10", "Rent Scam with Fake Property Listing",
    "Found a flat on OLX. The 'owner' claimed to be out of town and asked for a deposit to courier the keys. No response after payment.",
    "Rental Scam", ["https://images.unsplash.com/photo-1570129477492-45c003edd2be?w=800&q=80"],
    User("Ritika Mehta", "https://api.dicebear.com/7.x/avataaars/svg?seed=Ritika"), "1 week ago", 22, 5, false)

  /** The ten sample reports the feed starts with. */
  function SeedReports(): (rs: seq<ScamReport>)
    ensures |rs| == 10
  {
    [SeedReport1, SeedReport2, SeedReport3, SeedReport4, SeedReport5,
     SeedReport6, SeedReport7, SeedReport8, SeedReport9, SeedReport10]
  }

  /** The sample reports already satisfy the like invariant. */
  lemma SeedLikeConsistent()
    ensures AllLikeConsistent(SeedReports())
  {
  }

  // ---------------------------------------------------------------------------
  // Component state

  /** The feed's state: the fields `useState` holds. */
  class Hub {
    var reports: seq<ScamReport>
    var draft: Draft
    var isDialogOpen: bool

    ghost predicate Valid()
      reads this
    {
      AllLikeConsistent(reports)
    }

    constructor ()
      ensures Valid()
      ensures reports == SeedReports() && draft == EmptyDraft && !isDialogOpen
    {
      reports := SeedReports();
      draft := EmptyDraft;
      isDialogOpen := false;
      SeedLikeConsistent();
    }

    /** `handleInputChange`: only the named draft field changes. */
    method SetField(field: DraftField, value: string)
      requires Valid()
      modifies this
      ensures Valid()
      ensures reports == old(reports) && isDialogOpen == old(isDialogOpen)
      ensures field == TitleField ==> draft == old(draft).(title := value)
      ensures field == DescriptionField ==> draft == old(draft).(description := value)
    {
      match field {
        case TitleField => draft := draft.(title := value);
        case DescriptionField => draft := draft.(description := value);
      }
    }

    /** `handleScamTypeChange`: only the scam type changes. */
    method SetScamType(value: string)
      requires Valid()
      modifies this
      ensures Valid()
      ensures reports == old(reports) && isDialogOpen == old(isDialogOpen)
      ensures draft == old(draft).(scamType := value)
    {
      draft := draft.(scamType := value);
    }

    /** `handleImageUpload`: `files` is `None` when the input reports no file
        list, otherwise the object URLs of the chosen files, which follow the
        images already attached. */
    method UploadImages(files: Option<seq<string>>)
      requires Valid()
      modifies this
      ensures Valid()
      ensures reports == old(reports) && isDialogOpen == old(isDialogOpen)
      ensures files.None? ==> draft == old(draft)
      ensures files.Some? ==> draft == old(draft).(images := old(draft).images + files.value)
    {
      if files.Some? {
        draft := draft.(images := draft.images + files.value);
      }
    }

    /** The dialog's `onOpenChange`. */
    method SetDialogOpen(open: bool)
      requires Valid()
      modifies this
      ensures Valid()
      ensures reports == old(reports) && draft == old(draft) && isDialogOpen == open
    {
      isDialogOpen := open;
    }

    /** `handleSubmit`: the draft becomes a new report at the head of the
        feed, the draft is emptied and the dialog closes. */
    method Submit(id: string)
      requires Valid()
      modifies this
      ensures Valid()
      ensures reports == [NewReport(old(draft), id)] + old(reports)
      ensures reports[1..] == old(reports)
      ensures draft == EmptyDraft && !isDialogOpen
    {
      SubmitPreservesLikes(reports, draft, id);
      reports := [NewReport(draft, id)] + reports;
      draft := EmptyDraft;
      isDialogOpen := false;
    }

    /** `toggleLike`: every report with that id flips its like. */
    method ToggleLike(id: string)
      requires Valid()
      modifies this
      ensures Valid()
      ensures reports == ToggleLikeIn(old(reports), id)
      ensures draft == old(draft) && isDialogOpen == old(isDialogOpen)
    {
      TogglePreservesLikes(reports, id);
      reports := ToggleLikeIn(reports, id);
    }
  }
}
