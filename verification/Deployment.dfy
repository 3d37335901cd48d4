/** The configuration the two services actually run with: their own codec and score. */
module Deployment {
  import opened Wrappers
  import opened Json
  import opened Event
  import opened Canonical
  import opened Scoring
  import opened Protocol
  import opened Ledger
  import opened Refinement
  import opened Safety
  import opened Commands

  /** The given settings with the codec and the score of the two services. */
  function Deploy(settings: Config, sigmoid: real -> real): Config {
    settings.(
      encode := e => Marshal(FIELD_NAMES, e),
      decode := s => WorkerDecoded(FIELD_NAMES, Lex(s)),
      score := e => Score(MODEL, sigmoid, e))
  }

  /** Across the wire: whatever the gateway admits, the worker reads back unchanged and accepts. */
  lemma DeployedMeetsContract(settings: Config, sigmoid: real -> real)
    ensures WireContract(Deploy(settings, sigmoid))
  {
    var cfg := Deploy(settings, sigmoid);
    FieldNamesAreSchema();
    FieldNamesArePlain();
    forall e | Valid(e) ensures cfg.decode(cfg.encode(e)) == Some(e) {
      WorkerReadsCanonical(FIELD_NAMES, e);
    }
    forall s | cfg.decode(s).Some? ensures Valid(cfg.decode(s).value) {
      WorkerAcceptsExactly(FIELD_NAMES, Lex(s), cfg.decode(s).value);
    }
  }

  /**
    End to end: in every state the deployed system can reach, each published decision for an entry that a gateway
    appended is the embedded model's score of the event whose canonical bytes that entry carries.
   */
  lemma PublishedScores(settings: Config, sigmoid: real -> real, w: World, i: nat)
    requires Configured(settings) && Reachable(Deploy(settings, sigmoid), w)
    requires i < |w.published|
    ensures var p := w.published[i];
            && p.id in w.appended
            && (w.appended[p.id].Admitted? ==>
                  exists e ::
                    && Valid(e) && w.appended[p.id].payload == Marshal(FIELD_NAMES, e)
                    && p.eventId == e.eventId == w.appended[p.id].eventId
                    && p.body == Decision(Score(MODEL, sigmoid, e)))
  {
    hide Reachable, WireContract, MarkersAgree, Conserved, Dated, Balanced, CausesFirst, NothingLost, Marshal, Score;
    hide WorkerDecoded, Lex, Valid;
    var cfg := Deploy(settings, sigmoid);
    DeployedMeetsContract(settings, sigmoid);
    assert Configured(cfg);
    DecisionsSay(cfg, w, i);
    Facts(cfg, w);
    var a := w.appended[w.published[i].id];
    if a.Admitted? {
      var read := EventOf(cfg, a.Content());
      assert Valid(read.value) && cfg.encode(read.value) == a.payload;
    }
  }
}
