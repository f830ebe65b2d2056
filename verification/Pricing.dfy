// Prices and the exact cost of one turn. Prices are whole cents per million tokens, so a cost is a
// whole number of units of 1e-8 USD.
module Pricing {
  import opened RunSteps

  datatype Price = Price(input: nat, output: nat, cacheRead: nat, cacheWrite: nat)

  function Cost(p: Price, u: Usage): (c: nat) {
    u.input * p.input + u.output * p.output + u.cacheRead * p.cacheRead + u.cacheWrite * p.cacheWrite
  }
}
