/**
 * The texts in which the P-51 Mustang parser of the general script differs from the P-51
 * script: its full overview text, and the page its main block parses.
 */
module GameDataTexts {
  /** The full overview text (process_game_data.py:140). */
  const FullOverviewText: string :=
    "The P-51 Mustang is regarded as one of the weakest "
    + "and most vulnerable vehicles in the entire game "
    + "due to having no flares. Since it's a plane, "
    + "it does not have the luxury of having the maneuverability "
    + "of helicopters to linger in their flares, avoid "
    + "lock-on missiles, and counter anti-air vehicles "
    + "such as the Pantsir S1 and Patriot AA, which "
    + "are extremely effective against the P-51 and "
    + "other planes. The P-51 Mustang is equipped with "
    + "four 20mm cannons mounted to its wings, which "
    + "function similarly to a machine gun due to their "
    + "lower individual fire rate when compared to the "
    + "rotary cannons mounted to other planes such as "
    + "the F-4 Phantom, F-14 Tomcat, and F-16 Falcon "
    + "to name a few. The P-51's 20mm cannons combined, "
    + "however, deal significant damage-per-shot and "
    + "are able to fire over a larger area with each "
    + "cannon shooting in an alternating pattern to "
    + "maximise fire rate and coverage. The P-51 Mustang "
    + "also comes with a single .50 caliber machine "
    + "gun mounted underneath the nose, which, although "
    + "by itself has a limited effectiveness, when combined "
    + "with the more powerful 20mm cannons, the .50 "
    + "caliber provides extra attrition damage against "
    + "enemy vehicles and exposed infantry. Much like "
    + "its real-life counterpart, the P-51 Mustang serves "
    + "as an effective plane for Close Air Support (CAS) "
    + "roles. Its powerful Area of Effect (AoE) damage "
    + "makes the platform well suited for engaging lightly "
    + "armored vehicles and exposed infantry whilst "
    + "also being able to finish off severely damaged "
    + "tanks in specific circumstances. Evaluating this "
    + "plane, if used correctly, the P-51 Mustang is "
    + "a cheap, effective CAS aircraft but falters in "
    + "other roles due to the divide between its skill "
    + "requirements and effectiveness against other, "
    + "more advanced planes."

  /** The page text the main block processes (process_game_data.py:279-362). */
  const PageContent: string :=
    "\n"
    + "The North American P-51 Mustang (referred to "
    + "as simply the \"P-51 Mustang\" in War Tycoon) "
    + "is a WW2-era fighter.\n"
    + "It is unlocked after purchasing it for $700,000 "
    + "in the Plane Hangar at Rebirth 7.\n"
    + "Contents\n"
    + "1\n"
    + "Overview\n"
    + "2\n"
    + "Stats\n"
    + "2.1\n"
    + "Firepower\n"
    + "2.2\n"
    + "Speed\n"
    + "2.3\n"
    + "Health\n"
    + "Overview\n"
    + "P-51 Mustang\n"
    + "\n"
    + "The in-game render for the P-51 Mustang.\n"
    + "General Information\n"
    + "Price\n"
    + "$700,000\n"
    + "Speed (Minimum)\n"
    + "Speed (Maximum)\n"
    + "205 MPH\n"
    + "266 MPH\n"
    + "\n"
    + "Health (Minimum)\n"
    + "Health (Maximum)\n"
    + "650 HP\n"
    + "845 HP\n"
    + "Armament\n"
    + "- 4x 20mm Cannons;\n"
    + "- 1x .50 Caliber Machine Gun.\n"
    + "Utility\n"
    + "- Zoom In\n"
    + "Seating Capacity\n"
    + "1\n"
    + "Hulls\n"
    + "Weapons\n"
    + "Engines\n"
    + "1\n"
    + "1\n"
    + "1\n"
    + "The P-51 Mustang is regarded as one of the weakest "
    + "and most vulnerable vehicles in the entire game "
    + "due to having no flares. Since it's a plane, "
    + "it does not have the luxury of having the maneuverability "
    + "of helicopters to linger in their flares, avoid "
    + "lock-on missiles, and counter anti-air vehicles "
    + "such as the Pantsir S1 and Patriot AA, which "
    + "are extremely effective against the P-51 and "
    + "other planes.\n"
    + "The P-51 Mustang is equipped with four 20mm cannons "
    + "mounted to its wings, which function similarly "
    + "to a machine gun due to their lower individual "
    + "fire rate when compared to the rotary cannons "
    + "mounted to other planes such as the F-4 Phantom, "
    + "F-14 Tomcat, and F-16 Falcon to name a few. The "
    + "P-51's 20mm cannons combined, however, deal significant "
    + "damage-per-shot and are able to fire over a larger "
    + "area with each cannon shooting in an alternating "
    + "pattern to maximise fire rate and coverage.\n"
    + "The P-51 Mustang also comes with a single .50 "
    + "caliber machine gun mounted underneath the nose, "
    + "which, although by itself has a limited effectiveness, "
    + "when combined with the more powerful 20mm cannons, "
    + "the .50 caliber provides extra attrition damage "
    + "against enemy vehicles and exposed infantry.\n"
    + "Much like its real-life counterpart, the P-51 "
    + "Mustang serves as an effective plane for Close "
    + "Air Support (CAS) roles. Its powerful Area of "
    + "Effect (AoE) damage makes the platform well suited "
    + "for engaging lightly armored vehicles and exposed "
    + "infantry whilst also being able to finish off "
    + "severely damaged tanks in specific circumstances.\n"
    + "Evaluating this plane, if used correctly, the "
    + "P-51 Mustang is a cheap, effective CAS aircraft "
    + "but falters in other roles due to the divide "
    + "between its skill requirements and effectiveness "
    + "against other, more advanced planes.\n"
    + "Stats\n"
    + "Firepower\n"
    + "Armament\n"
    + "Damage Per Shot (Non-Upgraded)\n"
    + "Damage Per Shot (Tier 1)\n"
    + "Damage Per Shot (Tier 2)\n"
    + "Damage Per Shot (Tier 3)\n"
    + "20mm Cannons\n"
    + "[TBA]\n"
    + "[TBA]\n"
    + "[TBA]\n"
    + "[TBA]\n"
    + ".50 Caliber Machine Gun\n"
    + "[TBA]\n"
    + "[TBA]\n"
    + "[TBA]\n"
    + "[TBA]\n"
    + "Speed\n"
    + "Speed (Non-Upgraded)\n"
    + "Speed (Tier 1)\n"
    + "Speed (Tier 2)\n"
    + "Speed (Tier 3)\n"
    + "205 MPH\n"
    + "[TBA] MPH\n"
    + "[TBA] MPH\n"
    + "266 MPH\n"
    + "Health\n"
    + "Health (Non-Upgraded)\n"
    + "Health (Tier 1)\n"
    + "Health (Tier 2)\n"
    + "Health (Tier 3)\n"
    + "650 HP\n"
    + "715 HP\n"
    + "780 HP\n"
    + "845 HP\n"
}
