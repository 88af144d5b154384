/**
  The diagnostics panel of components/system-diagnostics.tsx: four fixed rows
  built from the metrics it is given, each with a rounded value, a bar whose
  width is capped at 100 per cent, and a High / Normal / Low label.
*/
module SystemDiagnostics {
  import opened JsMath

  datatype Metrics = Metrics(cpu: real, memory: real, network: real, power: real)

  datatype Band = Low | Normal | High

  /** `value > 80 ? "High" : value > 50 ? "Normal" : "Low"` */
  function BandOf(value: real): (b: Band)
    ensures b == High <==> value > 80.0
    ensures b == Normal <==> 50.0 < value <= 80.0
    ensures b == Low <==> value <= 50.0
  {
    if value > 80.0 then High else if value > 50.0 then Normal else Low
  }

  function BandLabel(b: Band): string {
    match b
    case High => "High"
    case Normal => "Normal"
    case Low => "Low"
  }

  function BandRank(b: Band): int {
    match b
    case Low => 0
    case Normal => 1
    case High => 2
  }

  /** A larger value never gets a lower band. */
  lemma BandMonotone(v: real, w: real)
    requires v <= w
    ensures BandRank(BandOf(v)) <= BandRank(BandOf(w))
  {
  }

  /** The bar width in per cent: `Math.min(100, value)`. */
  function BarWidth(value: real): (w: real)
    ensures w <= 100.0
    ensures value <= 100.0 ==> w == value
    ensures value > 100.0 ==> w == 100.0
  {
    Min(100.0, value)
  }

  /** One row, as drawn. */
  datatype Row = Row(title: string, value: real, unit: string, shown: int, barWidth: real, band: string)

  function MakeRow(title: string, value: real, unit: string): Row {
    Row(title, value, unit, Round(value), BarWidth(value), BandLabel(BandOf(value)))
  }

  /** The four rows for the given metrics. */
  function Rows(m: Metrics): (rows: seq<Row>)
    ensures |rows| == 4
    ensures rows[0].title == "CPU Usage" && rows[0].value == m.cpu && rows[0].unit == "%"
    ensures rows[1].title == "Memory" && rows[1].value == m.memory && rows[1].unit == "%"
    ensures rows[2].title == "Network" && rows[2].value == m.network && rows[2].unit == "Mbps"
    ensures rows[3].title == "Power" && rows[3].value == m.power && rows[3].unit == "W"
    ensures forall i :: 0 <= i < 4 ==>
      && rows[i].shown as real - 0.5 <= rows[i].value < rows[i].shown as real + 0.5
      && rows[i].barWidth == BarWidth(rows[i].value) <= 100.0
      && rows[i].band == BandLabel(BandOf(rows[i].value))
  {
    [MakeRow("CPU Usage", m.cpu, "%"),
     MakeRow("Memory", m.memory, "%"),
     MakeRow("Network", m.network, "Mbps"),
     MakeRow("Power", m.power, "W")]
  }

  /** The three labels are different, so the label shows the band. */
  lemma BandLabelsDistinct(a: Band, b: Band)
    ensures BandLabel(a) == BandLabel(b) <==> a == b
  {
  }
}
