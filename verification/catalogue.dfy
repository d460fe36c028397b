/** Model names of the static fan catalogues, which the filter table and the
    monoblock motor rules refer to. The performance curves are not part of this model. */
module Fans {

  /** `FANS`: the three catalogue fans, in catalogue order. */
  const FAN_MODELS: seq<string> := ["BP-ERP 10/10 MC 4P", "BP-ERP 12/12 MC 6P", "BP-ERP 9/9 4P"]
}

module Tevex {

  /** `TEVEX_FANS`: the vendor's motor names, in catalogue order. */
  const TEVEX_FANS: seq<string> := [
    "TMI 7/7 1/5 CV (II)",
    "TMI 9/9 1/3 CV (II)",
    "TMI 9/9 1/2 CV (II)",
    "TMI 9/9 3/4 CV (II)",
    "TMI 10/10 1/3 CV (II)",
    "TMI 10/10 1/2 CV (II)",
    "TMI 10/10 3/4 CV (II 4P)",
    "TMI 10/10 3/4 CV (II 6P)",
    "TMI 10/10 1 CV (III)",
    "TMI 12/12 1 CV (II)",
    "TMI 12/12 1,5 CV (III T)",
    "TMI 12/12 1,5 CV (II M)",
    "TMT 9/9",
    "TMT 10/10",
    "TMT 12/12",
    "TMT 15/15",
    "TMT 18/18",
    "TMI 400º/2H 9/9 3/4 CV (II)",
    "TMI 400º/2H 9/9 3/4 CV (III)",
    "TMI 400º/2H 10/10 3/4 CV (II)",
    "TMI 400º/2H 10/10 3/4 CV (III)",
    "TMT4 9/9 400º/2H",
    "TMT4 10/10 400º/2H",
    "TMT4 12/12 400º/2H",
    "TMT4 15/15 400º/2H",
    "TMT4 18/18 400º/2H",
    "TSO 400º/2H 10/5",
    "TSO 400º/2H 12/6",
    "TSO 400º/2H 15/7",
    "TSO 400º/2H 18/9",
    "TSO 400º/2H 20/10",
    "TSO 400º/2H 22/11",
    "TSO 400º/2H 25/12",
    "TSO 400º/2H 30/14",
    "TSOR 200",
    "TSOR 225",
    "TSOR 250",
    "TSOR 280",
    "TSOR 315",
    "TSOR 355",
    "TSOR 400",
    "TSOR 450",
    "TSOR 500",
    "TSOR 560",
    "TSOR 630"
  ]
}
