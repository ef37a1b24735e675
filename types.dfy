/** The data shapes the web client exchanges with the exchange-rate service. */
module Types {

  /** One currency as the `/currencies` endpoint describes it; keyed by `shortCode` within a list. */
  datatype Currency = Currency(
    id: string,
    name: string,
    shortCode: string,
    code: string,
    precision: int,
    subunit: int,
    symbol: string,
    symbolFirst: bool,
    decimalMark: string,
    thousandsSeparator: string)

  /** The body of a `/currencies` reply; `metaCode` is the application status, 200 on success. */
  datatype CurrencyResponse = CurrencyResponse(metaCode: int, disclaimer: string, response: seq<Currency>)

  /** The body of a `/convert` reply; `value` is the converted amount. */
  datatype ConversionResponse = ConversionResponse(metaCode: int, disclaimer: string, value: real)
}
