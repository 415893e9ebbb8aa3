/** The two copies of the chatbot's logic that differ in small ways. */
module Variants {
  /** Package is the code under src/; Script is the monolithic main.py. */
  datatype Variant = Package | Script
}
