/** Concrete requests and the replies the server gives them. */
module Scenarios {
  import opened Wrappers
  import opened PyValues
  import opened Records
  import opened Tools
  import opened Server

  /** A name outside the six: the whole reply. */
  lemma UnknownToolReply()
    ensures Route("delete_customer") == None
    ensures ToJson(Failed(UnknownToolMessage("delete_customer")))
            == Obj(map["ok" := Bool(false), "error" := Str("Unknown tool 'delete_customer'.")])
  {
    assert UnknownToolMessage("delete_customer") == "Unknown tool 'delete_customer'.";
  }

  /** A call without `customer_id` is a KeyError, reported rather than raised:
      "Exception in tool 'get_customer': KeyError: 'customer_id'". */
  lemma MissingCustomerIdReply(store: Store)
    requires store.Valid()
    ensures Settle("get_customer", HandleGetCustomer(store, map["id" := Int(1)]))
            == Failed(ExceptionMessage("get_customer", KeyError("customer_id")))
  {
  }

  /** A customer id that is not a number fails in `int()`. */
  lemma NonNumericCustomerId()
    ensures CustomerIdArg(map["customer_id" := Str("abc")])
            == Err(ValueError("invalid literal for int() with base 10: 'abc'"))
  {
    assert StripLeading("abc") == "abc";
    assert StripTrailing("abc") == "abc";
    assert !IsDigit("abc"[0]);
    assert ParseInt("abc") == None;
    assert "invalid literal for int() with base 10: " + Quoted("abc")
           == "invalid literal for int() with base 10: 'abc'";
  }

  /** A missing customer is a reply with `ok: false`, not an exception. */
  lemma NotFoundReply(store: Store)
    requires store.Valid() && 7 !in store.customers
    ensures HandleGetCustomer(store, map["customer_id" := Int(7)]) == Ok(Failed("Customer with id=7 not found."))
  {
    assert Decimal(7) == "7";
    assert NotFoundMessage(7) == "Customer with id=7 not found.";
  }

  /** `phone` is advertised as updatable but never reaches the UPDATE, so
      such a call changes nothing and answers with the stored row. */
  lemma PhoneOnlyDataIgnored()
    ensures var args := map["customer_id" := Int(1), "data" := Obj(map["phone" := Str("555-0199")])];
            DataArg(args).Ok? && AllowedUpdates(DataArg(args).value) == map[]
  {
    var args := map["customer_id" := Int(1), "data" := Obj(map["phone" := Str("555-0199")])];
    assert DataArg(args) == Ok(map["phone" := Str("555-0199")]);
  }

  /** A priority outside the advertised enum, and a customer id sent as padded text,
      reach the INSERT as given. */
  lemma UrgentPriorityPassedThrough()
    ensures TicketArgs(map["customer_id" := Str(" 1\n"), "issue" := Str("Cannot log in"), "priority" := Str("urgent")])
            == Ok((1, "Cannot log in", "urgent"))
  {
    var args := map["customer_id" := Str(" 1\n"), "issue" := Str("Cannot log in"), "priority" := Str("urgent")];
    assert " " + Decimal(1) + "\n" == " 1\n";
    CustomerIdFromText(args, 1, " ", "\n");
  }
}
