/**
 * The help view (src/components/help-support.tsx): the FAQ and tutorial searches, the
 * support-ticket form with its submit handler, and the difficulty and category lookups.
 */
module HelpSupport {
  import opened Lists
  import opened Text

  datatype Faq = Faq(id: string, question: string, answer: string, category: string, helpful: int)

  datatype Tutorial = Tutorial(id: string, title: string, description: string, duration: string,
                               kind: string, category: string, difficulty: string)

  /** The question, answer or category contains the query, ignoring case. */
  predicate FaqMatches(f: Faq, searchQuery: string)
  {
    ContainsIgnoreCase(f.question, searchQuery) || ContainsIgnoreCase(f.answer, searchQuery)
    || ContainsIgnoreCase(f.category, searchQuery)
  }

  /** The title, description or category contains the query, ignoring case. */
  predicate TutorialMatches(t: Tutorial, searchQuery: string)
  {
    ContainsIgnoreCase(t.title, searchQuery) || ContainsIgnoreCase(t.description, searchQuery)
    || ContainsIgnoreCase(t.category, searchQuery)
  }

  function FilteredFaqs(fs: seq<Faq>, searchQuery: string): (r: seq<Faq>)
    ensures Sublist(r, fs)
    ensures forall f :: f in r <==> f in fs && FaqMatches(f, searchQuery)
    ensures forall f :: multiset(r)[f] == if FaqMatches(f, searchQuery) then multiset(fs)[f] else 0
  {
    FilterSublist(fs, f => FaqMatches(f, searchQuery));
    Filter(fs, f => FaqMatches(f, searchQuery))
  }

  function FilteredTutorials(ts: seq<Tutorial>, searchQuery: string): (r: seq<Tutorial>)
    ensures Sublist(r, ts)
    ensures forall t :: t in r <==> t in ts && TutorialMatches(t, searchQuery)
    ensures forall t :: multiset(r)[t] == if TutorialMatches(t, searchQuery) then multiset(ts)[t] else 0
  {
    FilterSublist(ts, t => TutorialMatches(t, searchQuery));
    Filter(ts, t => TutorialMatches(t, searchQuery))
  }

  /** An empty search keeps every FAQ entry. */
  lemma FilteredFaqsAll(fs: seq<Faq>)
    ensures FilteredFaqs(fs, "") == fs
  {
    forall i | 0 <= i < |fs| ensures FaqMatches(fs[i], "") {
      assert Lower("") == "";
      ContainsEmpty(Lower(fs[i].question));
    }
    FilterAll(fs, f => FaqMatches(f, ""));
  }

  /** An empty search keeps every tutorial. */
  lemma FilteredTutorialsAll(ts: seq<Tutorial>)
    ensures FilteredTutorials(ts, "") == ts
  {
    forall i | 0 <= i < |ts| ensures TutorialMatches(ts[i], "") {
      assert Lower("") == "";
      ContainsEmpty(Lower(ts[i].title));
    }
    FilterAll(ts, t => TutorialMatches(t, ""));
  }

  /** The search ignores case: typing the query in upper case finds the same entries. */
  lemma FaqSearchIgnoresCase(fs: seq<Faq>, searchQuery: string)
    ensures FilteredFaqs(fs, Lower(searchQuery)) == FilteredFaqs(fs, searchQuery)
  {
    LowerIdempotent(searchQuery);
    FilterExtensional(fs, f => FaqMatches(f, Lower(searchQuery)), f => FaqMatches(f, searchQuery));
  }

  /** The support-ticket form; priority and category hold the select's option value. */
  datatype Ticket = Ticket(subject: string, priority: string, category: string, message: string)

  const InitialTicket: Ticket := Ticket("", "medium", "general", "")

  /** The only validation: subject and message are non-empty. */
  predicate CanSubmit(t: Ticket)
  {
    t.subject != "" && t.message != ""
  }

  /** A blank form cannot be submitted, so a second submit right after a successful one is refused. */
  lemma InitialTicketRejected()
    ensures !CanSubmit(InitialTicket)
  {
  }

  /** Only emptiness is checked: a subject of spaces passes, whatever the priority and category. */
  lemma WhitespaceSubjectPasses(priority: string, category: string, message: string)
    requires message != ""
    ensures CanSubmit(Ticket(" ", priority, category, message))
  {
  }

  /** The form's state and its handlers. */
  class HelpDesk {
    var activeTab: string
    var searchQuery: string
    var ticket: Ticket

    constructor ()
      ensures activeTab == "faq" && searchQuery == "" && ticket == InitialTicket
    {
      activeTab := "faq";
      searchQuery := "";
      ticket := InitialTicket;
    }

    method SetSubject(subject: string)
      modifies this
      ensures ticket == old(ticket).(subject := subject)
      ensures activeTab == old(activeTab) && searchQuery == old(searchQuery)
    {
      ticket := ticket.(subject := subject);
    }

    method SetPriority(priority: string)
      modifies this
      ensures ticket == old(ticket).(priority := priority)
      ensures activeTab == old(activeTab) && searchQuery == old(searchQuery)
    {
      ticket := ticket.(priority := priority);
    }

    method SetCategory(category: string)
      modifies this
      ensures ticket == old(ticket).(category := category)
      ensures activeTab == old(activeTab) && searchQuery == old(searchQuery)
    {
      ticket := ticket.(category := category);
    }

    method SetMessage(message: string)
      modifies this
      ensures ticket == old(ticket).(message := message)
      ensures activeTab == old(activeTab) && searchQuery == old(searchQuery)
    {
      ticket := ticket.(message := message);
    }

    /**
     * `handleSubmitTicket`: refuses a ticket with an empty subject or message and leaves
     * it as it is; otherwise accepts it and resets the form to the blank ticket.
     */
    method SubmitTicket() returns (accepted: bool)
      modifies this
      ensures accepted <==> CanSubmit(old(ticket))
      ensures accepted ==> ticket == InitialTicket
      ensures !accepted ==> ticket == old(ticket)
      ensures activeTab == old(activeTab) && searchQuery == old(searchQuery)
    {
      if ticket.subject == "" || ticket.message == "" {
        return false;
      }
      ticket := InitialTicket;
      return true;
    }
  }

  datatype DifficultyTone = GreenTone | YellowTone | RedTone | GrayTone

  /** `getDifficultyColor`: one colour per known difficulty, grey for anything else. */
  function DifficultyColor(difficulty: string): (c: DifficultyTone)
    ensures c == GreenTone <==> difficulty == "Beginner"
    ensures c == YellowTone <==> difficulty == "Intermediate"
    ensures c == RedTone <==> difficulty == "Advanced"
    ensures c == GrayTone <==> difficulty !in ["Beginner", "Intermediate", "Advanced"]
  {
    if difficulty == "Beginner" then GreenTone
    else if difficulty == "Intermediate" then YellowTone
    else if difficulty == "Advanced" then RedTone
    else GrayTone
  }

  datatype CategoryIcon = Zap | Package | Users | CreditCard | BarChart | Star | HelpCircle

  const KnownCategories: seq<string> :=
    ["Getting Started", "Inventory", "Customer Management", "Payments", "Analytics", "Customization"]

  /** `getCategoryIcon`: one icon per known category, the help icon for anything else. */
  function CategoryIconOf(category: string): (i: CategoryIcon)
    ensures i == HelpCircle <==> category !in KnownCategories
    ensures i == Zap <==> category == "Getting Started"
    ensures i == Package <==> category == "Inventory"
    ensures i == Users <==> category == "Customer Management"
    ensures i == CreditCard <==> category == "Payments"
    ensures i == BarChart <==> category == "Analytics"
    ensures i == Star <==> category == "Customization"
  {
    if category == "Getting Started" then Zap
    else if category == "Inventory" then Package
    else if category == "Customer Management" then Users
    else if category == "Payments" then CreditCard
    else if category == "Analytics" then BarChart
    else if category == "Customization" then Star
    else HelpCircle
  }
}
