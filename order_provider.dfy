/**
  The order context of the frontend: it derives a username from the signed-in user's e-mail
  address and keeps three resources (customer, orders, dashboard statistics), each loaded by
  its own loader with a loading flag and an error message.

  Each load is one atomic step: the awaited client call is an input (`Fetch`), and the three
  loads the login effect starts are run one after the other (they touch disjoint state).
*/
module OrderProvider {
  import opened Wrappers
  import opened Services

  // ---------------------------------------------------------------------------------------
  // The username

  /** `email.split('@')[0]`: the text before the first '@', or all of it when there is none. */
  function EmailPrefix(email: string): (r: string)
    ensures r <= email
    ensures '@' !in r
    ensures |r| < |email| ==> email[|r|] == '@'
    ensures '@' !in email ==> r == email
    decreases |email|
  {
    if email == [] || email[0] == '@' then [] else [email[0]] + EmailPrefix(email[1..])
  }

  /** The prefix of `name + "@" + rest` is `name` for a name without an '@'. */
  lemma {:induction false} PrefixOfAddress(name: string, rest: string)
    requires '@' !in name
    ensures EmailPrefix(name + "@" + rest) == name
    decreases |name|
  {
    var email := name + "@" + rest;
    if name != [] {
      assert email[0] == name[0] && email[1..] == name[1..] + "@" + rest;
      PrefixOfAddress(name[1..], rest);
    }
  }

  /** The part of the Auth0 user profile the context reads. */
  datatype User = User(email: Option<string>)

  /** JavaScript truthiness of a nullable string: null and "" are falsy. */
  predicate Truthy(s: Option<string>) {
    s.Some? && s.value != ""
  }

  /** `getUsernameFromUser`: null without a user or without a (non-empty) e-mail. */
  function UsernameFromUser(user: Option<User>): (r: Option<string>)
    ensures r.None? <==> user.None? || !Truthy(user.value.email)
    ensures r.Some? ==> r.value <= user.value.email.value && '@' !in r.value
    ensures r.Some? ==> r.value == EmailPrefix(user.value.email.value)
  {
    if user.None? || !Truthy(user.value.email) then None
    else Some(EmailPrefix(user.value.email.value))
  }

  /** The username a loader goes on with; the `if (!username) return` guard also stops at "". */
  function LoadUsername(user: Option<User>): (r: Option<string>)
    ensures r.Some? <==> Truthy(UsernameFromUser(user))
    ensures r.Some? ==> r == UsernameFromUser(user)
  {
    var u := UsernameFromUser(user);
    if Truthy(u) then u else None
  }

  // ---------------------------------------------------------------------------------------
  // One resource and its load

  /** The three state hooks of one resource: its data, its loading flag and its error. */
  datatype Resource<T> = Resource(data: T, loading: bool, error: Option<string>)

  /** Before the call: loading on, the error cleared, the data kept. */
  function Start<T>(r: Resource<T>): (s: Resource<T>)
    ensures s.loading && s.error == None && s.data == r.data
  {
    r.(loading := true, error := None)
  }

  /**
    After the call: a thrown exception sets the fixed message, an error response sets its
    error and returns early, otherwise data that is present is stored; the `finally` block
    turns loading off in every case.
  */
  function Finish<R, T>(r: Resource<T>, outcome: Fetch<R>, store: R -> T, failure: string): (s: Resource<T>)
    ensures !s.loading
    ensures outcome.Threw? ==> s.error == Some(failure) && s.data == r.data
    ensures outcome.Responded? && Truthy(outcome.response.error) ==>
      s.error == outcome.response.error && s.data == r.data
    ensures outcome.Responded? && !Truthy(outcome.response.error) ==>
      && s.error == r.error
      && s.data == if outcome.response.data.Some? then store(outcome.response.data.value) else r.data
  {
    match outcome
    case Threw => r.(error := Some(failure), loading := false)
    case Responded(response) =>
      if Truthy(response.error) then r.(error := response.error, loading := false)
      else if response.data.Some? then r.(data := store(response.data.value), loading := false)
      else r.(loading := false)
  }

  /** A whole load, and what it leaves behind for each kind of outcome. */
  function Load<R, T>(r: Resource<T>, outcome: Fetch<R>, store: R -> T, failure: string): (s: Resource<T>)
    ensures !s.loading
    ensures outcome.Threw? ==> s.error == Some(failure) && s.data == r.data
    ensures outcome.Responded? && Truthy(outcome.response.error) ==>
      s.error == outcome.response.error && s.data == r.data
    ensures outcome.Responded? && !Truthy(outcome.response.error) ==>
      && s.error == None
      && s.data == if outcome.response.data.Some? then store(outcome.response.data.value) else r.data
  {
    Finish(Start(r), outcome, store, failure)
  }

  /** A failed load followed by a successful one leaves no error and the new data. */
  lemma LoadRecovers<R, T>(r: Resource<T>, failed: Fetch<R>, d: R, store: R -> T, failure: string)
    ensures var s := Load(Load(r, failed, store, failure), Responded(ApiResponse(Some(d), None)), store, failure);
      s.error == None && s.data == store(d) && !s.loading
  {
  }

  const CUSTOMER_FAILURE := "Failed to load customer data"
  const ORDERS_FAILURE := "Failed to load orders"
  const DASHBOARD_FAILURE := "Failed to load dashboard statistics"

  /** `setCustomer(response.data)` and `setDashboardStats(response.data)` store a present value. */
  function Present<T>(d: T): Option<T> {
    Some(d)
  }

  /** `setOrders(response.data)` stores the list itself. */
  function AsIs<T>(d: T): T {
    d
  }

  // ---------------------------------------------------------------------------------------
  // The provider

  class Provider {
    var user: Option<User>
    var isUserLoading: bool
    var customer: Resource<Option<Customer>>
    var orders: Resource<seq<OrderListItem>>
    var dashboard: Resource<Option<DashboardStats>>

    /** The initial state: nothing loaded, nothing loading, no errors. */
    constructor (user: Option<User>, isUserLoading: bool)
      ensures this.user == user && this.isUserLoading == isUserLoading
      ensures customer == Resource(None, false, None)
      ensures orders == Resource([], false, None)
      ensures dashboard == Resource(None, false, None)
    {
      this.user := user;
      this.isUserLoading := isUserLoading;
      customer := Resource(None, false, None);
      orders := Resource([], false, None);
      dashboard := Resource(None, false, None);
    }

    /** `loadCustomer`, with `outcome` standing for the awaited `lookupCustomer(username)`. */
    method LoadCustomer(outcome: Fetch<Customer>)
      modifies this`customer
      ensures customer == if LoadUsername(user).Some? then Load(old(customer), outcome, Present, CUSTOMER_FAILURE)
                          else old(customer)
    {
      var username := UsernameFromUser(user);
      if !Truthy(username) {
        return;
      }
      customer := customer.(loading := true);
      customer := customer.(error := None);
      match outcome {
        case Threw =>
          customer := customer.(error := Some(CUSTOMER_FAILURE));
        case Responded(response) =>
          if Truthy(response.error) {
            customer := customer.(error := response.error);
          } else if response.data.Some? {
            customer := customer.(data := response.data);
          }
      }
      customer := customer.(loading := false);
    }

    /** `loadOrders`, with `outcome` standing for the awaited `getCustomerOrders(username)`. */
    method LoadOrders(outcome: Fetch<seq<OrderListItem>>)
      modifies this`orders
      ensures orders == if LoadUsername(user).Some? then Load(old(orders), outcome, AsIs, ORDERS_FAILURE)
                        else old(orders)
    {
      var username := UsernameFromUser(user);
      if !Truthy(username) {
        return;
      }
      orders := orders.(loading := true);
      orders := orders.(error := None);
      match outcome {
        case Threw =>
          orders := orders.(error := Some(ORDERS_FAILURE));
        case Responded(response) =>
          if Truthy(response.error) {
            orders := orders.(error := response.error);
          } else if response.data.Some? {
            orders := orders.(data := response.data.value);
          }
      }
      orders := orders.(loading := false);
    }

    /** `loadDashboardStats`, with `outcome` standing for the awaited `getDashboardStats(username)`. */
    method LoadDashboardStats(outcome: Fetch<DashboardStats>)
      modifies this`dashboard
      ensures dashboard == if LoadUsername(user).Some? then Load(old(dashboard), outcome, Present, DASHBOARD_FAILURE)
                           else old(dashboard)
    {
      var username := UsernameFromUser(user);
      if !Truthy(username) {
        return;
      }
      dashboard := dashboard.(loading := true);
      dashboard := dashboard.(error := None);
      match outcome {
        case Threw =>
          dashboard := dashboard.(error := Some(DASHBOARD_FAILURE));
        case Responded(response) =>
          if Truthy(response.error) {
            dashboard := dashboard.(error := response.error);
          } else if response.data.Some? {
            dashboard := dashboard.(data := response.data);
          }
      }
      dashboard := dashboard.(loading := false);
    }

    /** `refreshOrders`: reloads the orders and nothing else. */
    method RefreshOrders(outcome: Fetch<seq<OrderListItem>>)
      modifies this`orders
      ensures orders == if LoadUsername(user).Some? then Load(old(orders), outcome, AsIs, ORDERS_FAILURE)
                        else old(orders)
    {
      LoadOrders(outcome);
    }

    /** `refreshDashboard`: reloads the dashboard statistics and nothing else. */
    method RefreshDashboard(outcome: Fetch<DashboardStats>)
      modifies this`dashboard
      ensures dashboard == if LoadUsername(user).Some? then Load(old(dashboard), outcome, Present, DASHBOARD_FAILURE)
                           else old(dashboard)
    {
      LoadDashboardStats(outcome);
    }

    /**
      The effect on `[user, isUserLoading]`: the new session state is taken over, and only
      when the user is known and present are the three loads started.
    */
    method UserChanged(newUser: Option<User>, newIsUserLoading: bool,
                       customerOutcome: Fetch<Customer>,
                       ordersOutcome: Fetch<seq<OrderListItem>>,
                       dashboardOutcome: Fetch<DashboardStats>)
      modifies this
      ensures user == newUser && isUserLoading == newIsUserLoading
      ensures var loads := !newIsUserLoading && newUser.Some? && LoadUsername(newUser).Some?;
        && customer == (if loads then Load(old(customer), customerOutcome, Present, CUSTOMER_FAILURE) else old(customer))
        && orders == (if loads then Load(old(orders), ordersOutcome, AsIs, ORDERS_FAILURE) else old(orders))
        && dashboard == (if loads then Load(old(dashboard), dashboardOutcome, Present, DASHBOARD_FAILURE) else old(dashboard))
    {
      user := newUser;
      isUserLoading := newIsUserLoading;
      if isUserLoading || user.None? {
        return;
      }
      LoadCustomer(customerOutcome);
      LoadOrders(ordersOutcome);
      LoadDashboardStats(dashboardOutcome);
    }
  }
}
