/**
 * The state-changing parts of the admin console in core/admin.py: the bulk
 * actions (verify/unverify users, activate/deactivate providers and data
 * plans, mark airtime transactions successful/failed), the fund-wallet form,
 * and the date list `get_last_30_days`. Each bulk action is one
 * `queryset.update`: a single field set to a constant on every selected
 * record, whatever its previous value.
 */
module Admin {
  import Store

  type UserId = Store.UserId
  type ProfileId = nat
  type ProviderId = nat
  type PlanId = nat
  type AirtimeId = nat

  datatype Profile = Profile(user: UserId, phoneNumber: string, isVerified: bool)
  datatype Provider = Provider(name: string, serviceType: string, isActive: bool)
  datatype Plan = Plan(name: string, provider: ProviderId, amount: int, dataVolume: string, validityDays: int, isActive: bool)
  datatype AirtimeTransaction = AirtimeTransaction(user: UserId, network: string, phoneNumber: string, amount: int, status: string)
  /** A row of the transaction log; the free-text description is not modelled. */
  datatype Transaction = Transaction(user: UserId, amount: int, kind: string, status: string)

  const Successful: string := "successful"
  const Failed: string := "failed"
  const WalletFunding: string := "wallet_funding"

  /** `queryset.update`: `f` applied to every selected record of `table`; other records and the key set stay as they are. */
  function UpdateSelected<K, V>(table: map<K, V>, selected: set<K>, f: V -> V): (r: map<K, V>)
    ensures r.Keys == table.Keys
    ensures forall k :: k in r ==> r[k] == if k in selected then f(table[k]) else table[k]
  {
    map k | k in table :: if k in selected then f(table[k]) else table[k]
  }

  /** `verify_users` / `unverify_users`: exactly the selected profiles get `isVerified == verified`; nothing else differs. */
  function SetVerified(profiles: map<ProfileId, Profile>, selected: set<ProfileId>, verified: bool): (r: map<ProfileId, Profile>)
    ensures r.Keys == profiles.Keys
    ensures forall k :: k in r ==> r[k] == if k in selected then profiles[k].(isVerified := verified) else profiles[k]
  {
    UpdateSelected(profiles, selected, (p: Profile) => p.(isVerified := verified))
  }

  /** `activate_providers` / `deactivate_providers`: exactly the selected providers get `isActive == active`. */
  function SetProvidersActive(providers: map<ProviderId, Provider>, selected: set<ProviderId>, active: bool): (r: map<ProviderId, Provider>)
    ensures r.Keys == providers.Keys
    ensures forall k :: k in r ==> r[k] == if k in selected then providers[k].(isActive := active) else providers[k]
  {
    UpdateSelected(providers, selected, (p: Provider) => p.(isActive := active))
  }

  /** `activate_plans` / `deactivate_plans`: exactly the selected plans get `isActive == active`. */
  function SetPlansActive(plans: map<PlanId, Plan>, selected: set<PlanId>, active: bool): (r: map<PlanId, Plan>)
    ensures r.Keys == plans.Keys
    ensures forall k :: k in r ==> r[k] == if k in selected then plans[k].(isActive := active) else plans[k]
  {
    UpdateSelected(plans, selected, (p: Plan) => p.(isActive := active))
  }

  /** `mark_as_successful` / `mark_as_failed`: exactly the selected transactions get `status`, whatever they had. */
  function SetStatus(airtime: map<AirtimeId, AirtimeTransaction>, selected: set<AirtimeId>, status: string)
    : (r: map<AirtimeId, AirtimeTransaction>)
    ensures r.Keys == airtime.Keys
    ensures forall k :: k in r ==> r[k] == if k in selected then airtime[k].(status := status) else airtime[k]
  {
    UpdateSelected(airtime, selected, (t: AirtimeTransaction) => t.(status := status))
  }

  /**
   * Marking the same selection twice leaves what the second marking alone
   * would: the earlier status is forgotten (so marking twice with the same
   * status is marking once).
   */
  lemma SetStatusLastWins(airtime: map<AirtimeId, AirtimeTransaction>, selected: set<AirtimeId>,
                            first: string, second: string)
    ensures SetStatus(SetStatus(airtime, selected, first), selected, second) == SetStatus(airtime, selected, second)
  {
  }

  /** Verifying or unverifying the same selection twice leaves what the second action alone would. */
  lemma SetVerifiedLastWins(profiles: map<ProfileId, Profile>, selected: set<ProfileId>, first: bool, second: bool)
    ensures SetVerified(SetVerified(profiles, selected, first), selected, second) == SetVerified(profiles, selected, second)
  {
  }

  /** The admin console's tables. */
  class VtuDatabase {
    var profiles: map<ProfileId, Profile>
    /** The balance of each profile's wallet; a profile may have no wallet. */
    var wallets: map<ProfileId, int>
    var transactions: seq<Transaction>
    var providers: map<ProviderId, Provider>
    var plans: map<PlanId, Plan>
    var airtime: map<AirtimeId, AirtimeTransaction>

    /** Every wallet belongs to a profile. */
    ghost predicate Valid()
      reads this
    {
      wallets.Keys <= profiles.Keys
    }

    constructor ()
      ensures Valid()
      ensures profiles == map[] && wallets == map[] && transactions == []
      ensures providers == map[] && plans == map[] && airtime == map[]
    {
      profiles, wallets, transactions := map[], map[], [];
      providers, plans, airtime := map[], map[], map[];
    }
  }

  /** `verify_users`. */
  method VerifyUsers(db: VtuDatabase, selected: set<ProfileId>)
    requires db.Valid()
    modifies db`profiles
    ensures db.Valid()
    ensures db.profiles == SetVerified(old(db.profiles), selected, true)
  {
    db.profiles := SetVerified(db.profiles, selected, true);
  }

  /** `unverify_users`. */
  method UnverifyUsers(db: VtuDatabase, selected: set<ProfileId>)
    requires db.Valid()
    modifies db`profiles
    ensures db.Valid()
    ensures db.profiles == SetVerified(old(db.profiles), selected, false)
  {
    db.profiles := SetVerified(db.profiles, selected, false);
  }

  /** `activate_providers`. */
  method ActivateProviders(db: VtuDatabase, selected: set<ProviderId>)
    requires db.Valid()
    modifies db`providers
    ensures db.Valid()
    ensures db.providers == SetProvidersActive(old(db.providers), selected, true)
  {
    db.providers := SetProvidersActive(db.providers, selected, true);
  }

  /** `deactivate_providers`. */
  method DeactivateProviders(db: VtuDatabase, selected: set<ProviderId>)
    requires db.Valid()
    modifies db`providers
    ensures db.Valid()
    ensures db.providers == SetProvidersActive(old(db.providers), selected, false)
  {
    db.providers := SetProvidersActive(db.providers, selected, false);
  }

  /** `activate_plans`. */
  method ActivatePlans(db: VtuDatabase, selected: set<PlanId>)
    requires db.Valid()
    modifies db`plans
    ensures db.Valid()
    ensures db.plans == SetPlansActive(old(db.plans), selected, true)
  {
    db.plans := SetPlansActive(db.plans, selected, true);
  }

  /** `deactivate_plans`. */
  method DeactivatePlans(db: VtuDatabase, selected: set<PlanId>)
    requires db.Valid()
    modifies db`plans
    ensures db.Valid()
    ensures db.plans == SetPlansActive(old(db.plans), selected, false)
  {
    db.plans := SetPlansActive(db.plans, selected, false);
  }

  /** `mark_as_successful`. */
  method MarkAsSuccessful(db: VtuDatabase, selected: set<AirtimeId>)
    requires db.Valid()
    modifies db`airtime
    ensures db.Valid()
    ensures db.airtime == SetStatus(old(db.airtime), selected, Successful)
  {
    db.airtime := SetStatus(db.airtime, selected, Successful);
  }

  /** `mark_as_failed`. */
  method MarkAsFailed(db: VtuDatabase, selected: set<AirtimeId>)
    requires db.Valid()
    modifies db`airtime
    ensures db.Valid()
    ensures db.airtime == SetStatus(old(db.airtime), selected, Failed)
  {
    db.airtime := SetStatus(db.airtime, selected, Failed);
  }

  /** The `amount` form field: a number, or text (or nothing) that `float()` rejects. */
  datatype AmountField = Amount(value: int) | Unparseable

  /** Why funding failed; each is caught and shown as an error message. */
  datatype FundFailure = BadAmount | UnknownProfile | NoWallet

  /** What `fund_wallet_view` does with a request. */
  datatype FundResult = Funded | FundError(reason: FundFailure) | FundForm

  /**
   * The outcome of a fund-wallet request: a non-POST request only shows the
   * form; a POST fails, in this order, on an unparseable amount, an unknown
   * profile, or a profile without a wallet, and otherwise funds the wallet.
   * Any amount that parses is accepted, zero and negative ones included.
   */
  function FundOutcome(isPost: bool, amount: AmountField, profile: ProfileId,
                       profiles: map<ProfileId, Profile>, wallets: map<ProfileId, int>): (r: FundResult)
    ensures r == Funded <==> isPost && amount.Amount? && profile in profiles && profile in wallets
    ensures r == FundForm <==> !isPost
    ensures r == FundError(BadAmount) <==> isPost && amount.Unparseable?
    ensures r == FundError(UnknownProfile) <==> isPost && amount.Amount? && profile !in profiles
  {
    if !isPost then FundForm
    else if amount.Unparseable? then FundError(BadAmount)
    else if profile !in profiles then FundError(UnknownProfile)
    else if profile !in wallets then FundError(NoWallet)
    else Funded
  }

  /**
   * `fund_wallet_view`. When funding succeeds the wallet's balance grows by
   * exactly the amount and exactly one successful `wallet_funding`
   * transaction for the profile's user is logged; in every other case
   * neither the balances nor the log change.
   */
  method FundWalletView(db: VtuDatabase, isPost: bool, profile: ProfileId, amount: AmountField) returns (result: FundResult)
    requires db.Valid()
    modifies db`wallets, db`transactions
    ensures db.Valid()
    ensures result == FundOutcome(isPost, amount, profile, db.profiles, old(db.wallets))
    ensures result == Funded ==>
              && db.wallets == old(db.wallets)[profile := old(db.wallets)[profile] + amount.value]
              && db.transactions == old(db.transactions) + [Transaction(db.profiles[profile].user, amount.value, WalletFunding, Successful)]
    ensures result != Funded ==> db.wallets == old(db.wallets) && db.transactions == old(db.transactions)
  {
    result := FundOutcome(isPost, amount, profile, db.profiles, db.wallets);
    if result == Funded {
      db.wallets := db.wallets[profile := db.wallets[profile] + amount.value];
      db.transactions := db.transactions + [Transaction(db.profiles[profile].user, amount.value, WalletFunding, Successful)];
    }
  }

  /** A calendar date, as a day number: consecutive days have consecutive numbers. */
  type Date = int

  /** `get_last_30_days`: thirty dates, starting with `today`, each the day before the previous one. */
  function Last30Days(today: Date): (r: seq<Date>)
    ensures |r| == 30 && r[0] == today
    ensures forall i :: 0 < i < |r| ==> r[i] == r[i - 1] - 1
  {
    seq(30, i => today - i)
  }
}
