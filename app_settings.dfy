/** The single per-install settings record. Its fields are stored in place
    and changed by the settings screens. */
module Settings {
  import opened Basics

  const DefaultBaselineMin: real := 35.0
  const DefaultBaselineMax: real := 55.0
  const DefaultChartPeriod: string := "3M"
  const DefaultChartScale: string := "D"
  const DefaultSmaWindow: int := 7

  class AppSettings {
    var baselineMin: real
    var baselineMax: real
    var chartPeriod: string
    var chartScale: string
    var smaWindow: int

    /** Stores every argument verbatim except a maximum below the minimum,
        which is raised to the minimum. */
    constructor (baselineMin: real, baselineMax: real, chartPeriod: string, chartScale: string, smaWindow: int)
      ensures this.baselineMin == baselineMin
      ensures this.baselineMax == (if baselineMax >= baselineMin then baselineMax else baselineMin)
      ensures this.baselineMin <= this.baselineMax
      ensures this.chartPeriod == chartPeriod && this.chartScale == chartScale
      ensures this.smaWindow == smaWindow
    {
      this.baselineMin := baselineMin;
      this.baselineMax := Max(baselineMax, baselineMin);
      this.chartPeriod := chartPeriod;
      this.chartScale := chartScale;
      this.smaWindow := smaWindow;
    }

    /** `AppSettings()` with every default argument. */
    constructor WithDefaults()
      ensures baselineMin == 35.0 && baselineMax == 55.0
      ensures chartPeriod == "3M" && chartScale == "D" && smaWindow == 7
      ensures baselineMin <= baselineMax
    {
      baselineMin := DefaultBaselineMin;
      baselineMax := Max(DefaultBaselineMax, DefaultBaselineMin);
      chartPeriod := DefaultChartPeriod;
      chartScale := DefaultChartScale;
      smaWindow := DefaultSmaWindow;
    }

    function Baseline(): Corridor
      reads this
    {
      Corridor(baselineMin, baselineMax)
    }
  }
}
