/** The records a budgeting session works with: line items and the summary. */
module Records {

  /** The three numeric columns shared by a line item and by the summary. */
  datatype Metric = Time | Complexity | Cost

  /** One line item of the ledger, or the draft the form is editing. */
  datatype Item = Item(name: string, time: real, complexity: real, cost: real) {

    /** The value of column `m` */
    function Get(m: Metric): real {
      match m
      case Time => time
      case Complexity => complexity
      case Cost => cost
    }

    /** This item with column `m` set to `v`; the name and the other columns are kept. */
    function With(m: Metric, v: real): (r: Item)
      ensures r.Get(m) == v
      ensures r.name == name
      ensures forall m' :: m' != m ==> r.Get(m') == Get(m')
    {
      match m
      case Time => this.(time := v)
      case Complexity => this.(complexity := v)
      case Cost => this.(cost := v)
    }
  }

  /** The draft the form starts from and returns to after every successful add:
      an empty name and zero in every column. */
  const EmptyDraft: Item := Item("", 0.0, 0.0, 0.0)

  /** The summary shown once the ledger has been averaged. */
  datatype Summary = Summary(time: real, complexity: real, cost: real) {

    /** The value of column `m` */
    function Get(m: Metric): real {
      match m
      case Time => time
      case Complexity => complexity
      case Cost => cost
    }
  }
}
