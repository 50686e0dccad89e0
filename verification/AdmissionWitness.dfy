/** Admission configured too late: a reached state with a member, after which the books do not balance. */
module AdmissionWitness {
  import opened SessionGraph
  import opened CoreSteps
  import opened Admission
  import opened AdmissionControllers
  import opened Ledgers
  import opened Rosters
  import opened AdmittedCores
  import opened AdvanceWitness

  lemma JoinedOk(config: CoreConfig)
    requires Roomy(config)
    ensures Inv(Joined(), config) && (1, SESSION) in RosterOf(Joined()).members
  {
    KnownOk(config);
    OwnerJoins(config);
    JoinStep(AdvanceWitness.Known(), config, 1, SESSION, 0);
    JoinOutcomeRoster(AdvanceWitness.Known(), config, 1, SESSION, 0);
  }

  lemma EmptyLedgerOk(r: Roster)
    ensures LedgerOk(NEW_LEDGER, r)
  {
    assert NEW_LEDGER.Held() == map[];
  }

  /** Provision, connect, authenticate, join: tables and books are consistent. Admission configured now is
      accepted, and the books no longer balance: the member holds no lease. */
  lemma ConfiguredTooLate(config: CoreConfig, policy: QueuePolicy, capacity: nat, revision: nat)
    requires Roomy(config) && capacity <= U32_MAX
    ensures Inv(Joined(), config) && LedgerOk(NEW_LEDGER, RosterOf(Joined()))
    ensures var late := NEW_LEDGER.(controllers := map[SESSION := Tables(NewState(SESSION, policy, capacity, revision),
                                                                         [], map[])]);
            !LedgerOk(late, RosterOf(Joined())) && (1, SESSION) in RosterOf(Joined()).members
              && late.LeaseOf((1, SESSION)).None?
  {
    JoinedOk(config);
    EmptyLedgerOk(RosterOf(Joined()));
    EmptyTables(SESSION, policy, capacity, revision);
    ConfiguredExactly(NEW_LEDGER, RosterOf(Joined()), SESSION,
                      Tables(NewState(SESSION, policy, capacity, revision), [], map[]));
    assert NEW_LEDGER.controllers[SESSION := Tables(NewState(SESSION, policy, capacity, revision), [], map[])]
        == map[SESSION := Tables(NewState(SESSION, policy, capacity, revision), [], map[])];
  }
}
