/** The enumerations both revisions share: the climate of a habitat and the broad type of an animal. */
module Environment {

  datatype Climate = Tropical | Dry | Temperate | Continental | Polar

  datatype AnimalType = Bird | Mammal | Reptile
}
