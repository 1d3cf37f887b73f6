/**
 * The contact page (src/pages/Contact.jsx): a four-field message form sent through an
 * e-mail relay, and a column of contact cards of which one at a time shows its extra
 * line. A send goes idle -> loading -> (submitted | error) -> not loading; the relay's
 * reply arrives later, so its three callbacks are methods of their own.
 */
module Contact {
  import opened Wrappers
  import opened Selection
  import opened Records

  /** The `name` attributes of the form's four inputs, in the order they are rendered. */
  const FieldNames: seq<string> := ["name", "email", "subject", "message"]

  /** The text shown above the form when the relay reports a failure. */
  const FailureMessage: string := "Failed to send message. Please try again."

  datatype ContactCard = ContactCard(title: string, details: string, additionalInfo: string)

  const ContactInfo: seq<ContactCard> := [
    ContactCard("Phone", "+1 (555) 123-4567", "Available Monday to Friday, 9 AM - 6 PM EST"),
    ContactCard("Email", "support@growwbook.com", "We usually respond within 24 hours"),
    ContactCard("Address", "123 Business Avenue, Silicon Valley, CA 94025", "Open for in-person meetings by appointment"),
    ContactCard("WhatsApp", "+1 (555) 987-6543", "Available for instant messaging support")
  ]

  /** The form record with every field blank: the initial value and the value after a send. */
  function EmptyForm(): (m: map<string, string>)
    ensures m.Keys == set k | k in FieldNames
    ensures forall k :: k in m ==> m[k] == ""
  {
    map["name" := "", "email" := "", "subject" := "", "message" := ""]
  }

  /** What the message panel shows. */
  datatype Panel =
    | ThankYou
    | MessageForm(errorText: Option<string>, submitDisabled: bool, sending: bool)

  class ContactPage {
    var formData: map<string, string>
    var isSubmitted: bool
    var isLoading: bool
    var error: Option<string>
    var selectedContact: Option<int>

    /** The only error text the page ever sets is `FailureMessage`. */
    ghost predicate Valid()
      reads this
    {
      error == None || error == Some(FailureMessage)
    }

    constructor ()
      ensures Valid()
      ensures formData == EmptyForm() && !isSubmitted && !isLoading && error == None && selectedContact == None
    {
      formData := EmptyForm();
      isSubmitted := false;
      isLoading := false;
      error := None;
      selectedContact := None;
    }

    /** The form's `onSubmit`, up to handing the form to the relay. */
    method HandleSubmit()
      requires Valid()
      modifies this
      ensures Valid()
      ensures isLoading && error == None
      ensures formData == old(formData) && isSubmitted == old(isSubmitted) && selectedContact == old(selectedContact)
    {
      isLoading := true;
      error := None;
    }

    /** The relay's `.then`: the success panel replaces the form and the fields are blanked. */
    method SendSucceeded()
      requires Valid()
      modifies this
      ensures Valid()
      ensures isSubmitted && formData == EmptyForm()
      ensures isLoading == old(isLoading) && error == old(error) && selectedContact == old(selectedContact)
    {
      isSubmitted := true;
      formData := EmptyForm();
    }

    /** The relay's `.catch`: the failure text is set; the fields keep what the user typed. */
    method SendFailed()
      requires Valid()
      modifies this
      ensures Valid()
      ensures error == Some(FailureMessage)
      ensures formData == old(formData) && isSubmitted == old(isSubmitted)
      ensures isLoading == old(isLoading) && selectedContact == old(selectedContact)
    {
      error := Some(FailureMessage);
    }

    /** The relay's `.finally`, run after either outcome. */
    method SendSettled()
      requires Valid()
      modifies this
      ensures Valid()
      ensures !isLoading
      ensures formData == old(formData) && isSubmitted == old(isSubmitted)
      ensures error == old(error) && selectedContact == old(selectedContact)
    {
      isLoading := false;
    }

    /** An input's `onChange`: only the field the input names is rewritten. */
    method HandleChange(name: string, value: string)
      requires Valid()
      modifies this
      ensures Valid()
      ensures formData == WithField(old(formData), name, value)
      ensures isSubmitted == old(isSubmitted) && isLoading == old(isLoading)
      ensures error == old(error) && selectedContact == old(selectedContact)
    {
      formData := formData[name := value];
    }

    /** A click on contact card `index`. */
    method ClickContact(index: int)
      requires Valid()
      modifies this
      ensures Valid()
      ensures selectedContact == Toggle(old(selectedContact), index)
      ensures formData == old(formData) && isSubmitted == old(isSubmitted)
      ensures isLoading == old(isLoading) && error == old(error)
    {
      selectedContact := if selectedContact == Some(index) then None else Some(index);
    }

    /**
     * The message panel: the thank-you panel exactly when a send has succeeded; otherwise
     * the form, with the error text if one is set and a submit button that is disabled
     * and reads "Sending..." exactly while a send is in flight.
     */
    function View(): (p: Panel)
      requires Valid()
      reads this
      ensures p == ThankYou <==> isSubmitted
      ensures p.MessageForm? ==> p.errorText == error && (p.submitDisabled <==> isLoading) && (p.sending <==> isLoading)
      ensures p.MessageForm? && p.errorText.Some? ==> p.errorText.value == FailureMessage
    {
      if isSubmitted then ThankYou else MessageForm(error, isLoading, isLoading)
    }

    /** The cards whose `additionalInfo` is shown: at most one, the card at `selectedContact`. */
    function OpenCards(): (r: seq<ContactCard>)
      reads this
      ensures |r| <= 1
      ensures r != [] <==> selectedContact.Some? && 0 <= selectedContact.value < |ContactInfo|
      ensures r != [] ==> r == [ContactInfo[selectedContact.value]]
    {
      OpenItems(ContactInfo, selectedContact, 0)
    }
  }

  /**
   * One send as the browser runs it: the submit handler, then the relay's outcome
   * (`delivered` stands for what the relay reports), then `.finally`. Either way loading
   * ends; success blanks the form and shows the thank-you panel, failure keeps the fields
   * and shows the failure text.
   */
  method SubmitAndSettle(page: ContactPage, delivered: bool)
    requires page.Valid()
    modifies page
    ensures page.Valid()
    ensures !page.isLoading && page.selectedContact == old(page.selectedContact)
    ensures delivered ==> page.isSubmitted && page.formData == EmptyForm() && page.error == None
    ensures delivered ==> page.View() == ThankYou
    ensures !delivered ==> page.error == Some(FailureMessage)
    ensures !delivered ==> page.formData == old(page.formData) && page.isSubmitted == old(page.isSubmitted)
    ensures !delivered && !page.isSubmitted ==> page.View() == MessageForm(Some(FailureMessage), false, false)
  {
    page.HandleSubmit();
    if delivered {
      page.SendSucceeded();
    } else {
      page.SendFailed();
    }
    page.SendSettled();
  }
}
