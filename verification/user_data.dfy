/** The contact and delivery details collected before an order is placed. */
module Users {

  /** JavaScript's `!!s` on a string: true exactly when it is not empty. */
  predicate Truthy(s: string) {
    s != ""
  }

  datatype UserData = UserData(address: string, deliveryMethod: string, email: string, phone: string) {

    /** The four fields in declaration order. */
    function Fields(): seq<string> {
      [address, deliveryMethod, email, phone]
    }

    /** The completeness check that gates order submission: every field is
        filled in. */
    function IsValid(): (ok: bool)
      ensures ok <==> forall f | f in Fields() :: |f| > 0
      ensures ok <==> "" !in Fields()
    {
      Truthy(address) && Truthy(deliveryMethod) && Truthy(email) && Truthy(phone)
    }
  }

  /** Emptying any one field makes the details incomplete, whatever the
      other three hold. */
  lemma ClearingAnyFieldInvalidates(u: UserData)
    ensures !u.(address := "").IsValid()
    ensures !u.(deliveryMethod := "").IsValid()
    ensures !u.(email := "").IsValid()
    ensures !u.(phone := "").IsValid()
  {
  }

  /** Filling every field with some non-empty text makes the details
      complete, whatever the text is. */
  lemma FilledFieldsAreValid(address: string, deliveryMethod: string, email: string, phone: string)
    requires |address| > 0 && |deliveryMethod| > 0 && |email| > 0 && |phone| > 0
    ensures UserData(address, deliveryMethod, email, phone).IsValid()
  {
  }

  /** A complete and an incomplete example. */
  lemma IsValidExamples()
    ensures UserData("x", "courier", "a@b.c", "1").IsValid()
    ensures !UserData("", "courier", "a@b.c", "1").IsValid()
  {
  }
}
