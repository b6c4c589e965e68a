/** The repairer dashboard: the list of items open for quotes and the
    quote form, whose submission inserts a pending quote and marks the
    item quoted. Number parsing of the price, the generated quote id, the
    clock and the database's verdict on the insert are parameters; the
    list reload after a submission is not modelled. */
module RepairerDashboard {
  import opened Basics
  import opened Lists
  import opened Records
  import opened Database

  /** Items open for quotes: those still submitted. */
  predicate IsAvailable(it: Item) {
    it.status == Submitted
  }

  /** The query of `loadAvailableItems`. */
  function AvailableItems(rows: seq<Item>): (r: seq<Item>)
    ensures forall i :: 0 <= i < |r| ==> r[i].status == Submitted
    ensures forall i :: 0 <= i < |rows| && rows[i].status == Submitted ==> rows[i] in r
    ensures Subsequence(r, rows)
    ensures forall it :: multiset(r)[it] == if it.status == Submitted then multiset(rows)[it] else 0
  {
    Filter(rows, IsAvailable)
  }

  /** `quoteForm`: the three text inputs. */
  datatype QuoteForm = QuoteForm(price: string, estimatedDuration: string, message: string)

  const EmptyQuoteForm: QuoteForm := QuoteForm("", "", "")

  /** The quote a submission inserts: pending, for the selected item, by
      the current user, with the form's duration and message. */
  function NewQuote(id: string, item: Item, repairerId: string, form: QuoteForm,
                    parseFloat: string -> real, now: string): (q: Quote)
    ensures q.status == Pending && q.item_id == item.id && q.repairer_id == repairerId
    ensures q.price == parseFloat(form.price) && q.estimated_duration == form.estimatedDuration
    ensures q.message == Some(form.message) && q.id == id
  {
    Quote(id, item.id, repairerId, parseFloat(form.price), form.estimatedDuration, Some(form.message), Pending, now)
  }

  class QuoteDesk {
    var items: seq<Item>
    var selectedItem: Option<Item>
    var showQuoteModal: bool
    var form: QuoteForm

    constructor ()
      ensures items == [] && selectedItem.None? && !showQuoteModal && form == EmptyQuoteForm
    {
      items := [];
      selectedItem := None;
      showQuoteModal := false;
      form := EmptyQuoteForm;
    }

    /** `loadAvailableItems` on the rows of the items table. */
    method LoadAvailableItems(rows: seq<Item>)
      modifies this
      ensures items == AvailableItems(rows)
      ensures selectedItem == old(selectedItem) && showQuoteModal == old(showQuoteModal) && form == old(form)
    {
      items := AvailableItems(rows);
    }

    /** "View details" on a card: the item is selected, the form stays
        closed. */
    method ViewDetails(it: Item)
      modifies this
      ensures selectedItem == Some(it) && !showQuoteModal
      ensures items == old(items) && form == old(form)
    {
      selectedItem := Some(it);
      showQuoteModal := false;
    }

    /** "Send quote" on a card: the item is selected and the form opens. */
    method OpenQuote(it: Item)
      modifies this
      ensures selectedItem == Some(it) && showQuoteModal
      ensures items == old(items) && form == old(form)
    {
      selectedItem := Some(it);
      showQuoteModal := true;
    }

    /** Closing the detail panel clears the selection. */
    method CloseDetails()
      modifies this
      ensures selectedItem.None?
      ensures items == old(items) && form == old(form) && showQuoteModal == old(showQuoteModal)
    {
      selectedItem := None;
    }

    method SetPrice(text: string)
      modifies this
      ensures form == old(form).(price := text)
      ensures items == old(items) && selectedItem == old(selectedItem) && showQuoteModal == old(showQuoteModal)
    {
      form := form.(price := text);
    }

    method SetDuration(text: string)
      modifies this
      ensures form == old(form).(estimatedDuration := text)
      ensures items == old(items) && selectedItem == old(selectedItem) && showQuoteModal == old(showQuoteModal)
    {
      form := form.(estimatedDuration := text);
    }

    method SetMessage(text: string)
      modifies this
      ensures form == old(form).(message := text)
      ensures items == old(items) && selectedItem == old(selectedItem) && showQuoteModal == old(showQuoteModal)
    {
      form := form.(message := text);
    }

    /** The submit button is enabled only with a price and a duration. */
    predicate CanSubmit()
      reads this
      ensures CanSubmit() ==> form != EmptyQuoteForm
    {
      form.price != "" && form.estimatedDuration != ""
    }

    /** Cancel closes the form and empties it; the selection stays. */
    method Cancel()
      modifies this
      ensures !showQuoteModal && form == EmptyQuoteForm && !CanSubmit()
      ensures items == old(items) && selectedItem == old(selectedItem)
    {
      showQuoteModal := false;
      form := EmptyQuoteForm;
    }

    /** `submitQuote`. Without a user or a selected item nothing happens.
        The quote insert fails when the database refuses it (`insertOk`
        false) or the id is taken; then nothing else happens. After a
        successful insert the item row becomes quoted, the form closes,
        the selection clears and the form empties. */
    method SubmitQuote(db: Db, user: Option<string>, quoteId: string, now: string,
                       parseFloat: string -> real, insertOk: bool)
      modifies this, db
      ensures items == old(items)
      ensures user.None? || old(selectedItem).None? ==> unchanged(this) && unchanged(db)
      ensures user.Some? && old(selectedItem).Some? ==>
        var sel := old(selectedItem).value;
        if insertOk && quoteId !in old(db.quotes) then
          && db.quotes == old(db.quotes)[quoteId := NewQuote(quoteId, sel, user.value, old(form), parseFloat, now)]
          && db.items == SetItemStatus(old(db.items), sel.id, Quoted)
          && (sel.id in db.items ==> !IsAvailable(db.items[sel.id]))
          && db.repairs == old(db.repairs) && db.profiles == old(db.profiles)
          && db.ecoTransactions == old(db.ecoTransactions) && db.repairerProfiles == old(db.repairerProfiles)
          && !showQuoteModal && selectedItem.None? && form == EmptyQuoteForm
        else
          unchanged(this) && unchanged(db)
    {
      if user.None? || selectedItem.None? {
        return;
      }
      var sel := selectedItem.value;
      if !insertOk || quoteId in db.quotes {
        return;
      }
      db.quotes := db.quotes[quoteId := NewQuote(quoteId, sel, user.value, form, parseFloat, now)];
      db.items := SetItemStatus(db.items, sel.id, Quoted);
      showQuoteModal := false;
      selectedItem := None;
      form := EmptyQuoteForm;
    }
  }
}
