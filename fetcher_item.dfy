/** One field to scrape: where it is in the page, how to transform it, and its optional series. */
module FetcherItem {
  import opened Wrappers
  import opened Transformation
  import opened TimeSeries

  datatype FetcherItem = FetcherItem(
    resultKey: string,
    htmlKey: string,
    transform: Transformation,
    timeSeries: Option<Blueprint>,
    doFetch: bool)

  /** The constructor: a new item is always fetched. */
  function NewItem(resultKey: string, htmlKey: string, transform: Transformation, timeSeries: Option<Blueprint>): (r: FetcherItem)
    ensures r.doFetch
    ensures r.resultKey == resultKey && r.htmlKey == htmlKey && r.transform == transform && r.timeSeries == timeSeries
  {
    FetcherItem(resultKey, htmlKey, transform, timeSeries, true)
  }

  /** Items are looked up among the page's `input` elements ... */
  const HtmlTagName := "input"

  /** ... whose `name` attribute is the item's html key. */
  const HtmlAttrName := "name"
}
