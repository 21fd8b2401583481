/** The names shared by all components, and the allocation of gateway/internal/router/types.go. */
module Routing {

  type Instrument = string
  type VenueId = string

  datatype Reason =
    SingleVenue | WithinThreshold | DepthProportion | ResidualToBest | LowestAsk | HighestBid | PreferredVenue

  datatype Allocation = Allocation(venue: VenueId, quantity: real, reason: Reason)
}
